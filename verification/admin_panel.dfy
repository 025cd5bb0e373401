/** The admin editor's state transitions, lifted out of the component's
    `setState` closures into pure functions over the draft. */
module AdminPanel {
  import opened Wrappers
  import opened Records
  import opened LocalStore
  import opened JsText
  import DataService
  import AuthService
  import PlayerDataService

  // ---------------------------------------------------------------------
  // Single-field edits of the draft record
  // ---------------------------------------------------------------------

  /** A value written into one field of the draft. */
  datatype Scalar =
    | Text(s: string)
    | Number(n: int)
    | YearValue(y: Year)
    | KindValue(k: MediaKind)
    | MaybeText(o: Option<string>)

  /** The `(section, field)` pairs `handleInputChange` is called with. */
  datatype Field =
    | PlayerName | PlayerPosition | PlayerAge | PlayerNationality | PlayerHeight
    | PlayerWeight | PlayerClub | PlayerProfileImage | PlayerHighlightVideo | PlayerBio
    | StatsGoals | StatsAssists | StatsMatches | StatsMinutesPlayed
    | ContactEmail | ContactPhone
    | SeoTitle | SeoDescription | SeoKeywords | SeoImageUrl

  predicate IsNumeric(f: Field) {
    f.PlayerAge? || f.StatsGoals? || f.StatsAssists? || f.StatsMatches? || f.StatsMinutesPlayed?
  }

  /** The value has the field's type (the numeric inputs pass `parseInt`). */
  predicate Fits(f: Field, v: Scalar) {
    if IsNumeric(f) then v.Number? else v.Text?
  }

  /** Reads one field of the draft. */
  function FieldValue(d: PlayerData, f: Field): (v: Scalar)
    ensures Fits(f, v)
  {
    match f
    case PlayerName => Text(d.player.name)
    case PlayerPosition => Text(d.player.position)
    case PlayerAge => Number(d.player.age)
    case PlayerNationality => Text(d.player.nationality)
    case PlayerHeight => Text(d.player.height)
    case PlayerWeight => Text(d.player.weight)
    case PlayerClub => Text(d.player.club)
    case PlayerProfileImage => Text(d.player.profileImage)
    case PlayerHighlightVideo => Text(d.player.highlightVideo)
    case PlayerBio => Text(d.player.bio)
    case StatsGoals => Number(d.stats.goals)
    case StatsAssists => Number(d.stats.assists)
    case StatsMatches => Number(d.stats.matches)
    case StatsMinutesPlayed => Number(d.stats.minutesPlayed)
    case ContactEmail => Text(d.contact.email)
    case ContactPhone => Text(d.contact.phone)
    case SeoTitle => Text(d.seo.title)
    case SeoDescription => Text(d.seo.description)
    case SeoKeywords => Text(d.seo.keywords)
    case SeoImageUrl => Text(d.seo.imageUrl)
  }

  /** `handleInputChange(section, field, value)`: the field takes the value
      and every other field, list and setting of the draft is unchanged. No
      range check is made on numeric fields. */
  function InputChange(d: PlayerData, f: Field, v: Scalar): (d': PlayerData)
    requires Fits(f, v)
    ensures FieldValue(d', f) == v
    ensures forall g :: g != f ==> FieldValue(d', g) == FieldValue(d, g)
    ensures d'.skills == d.skills && d'.achievements == d.achievements
    ensures d'.mediaItems == d.mediaItems && d'.backgroundMusic == d.backgroundMusic
    ensures d'.contact.socialLinks == d.contact.socialLinks
  {
    match f
    case PlayerName => d.(player := d.player.(name := v.s))
    case PlayerPosition => d.(player := d.player.(position := v.s))
    case PlayerAge => d.(player := d.player.(age := v.n))
    case PlayerNationality => d.(player := d.player.(nationality := v.s))
    case PlayerHeight => d.(player := d.player.(height := v.s))
    case PlayerWeight => d.(player := d.player.(weight := v.s))
    case PlayerClub => d.(player := d.player.(club := v.s))
    case PlayerProfileImage => d.(player := d.player.(profileImage := v.s))
    case PlayerHighlightVideo => d.(player := d.player.(highlightVideo := v.s))
    case PlayerBio => d.(player := d.player.(bio := v.s))
    case StatsGoals => d.(stats := d.stats.(goals := v.n))
    case StatsAssists => d.(stats := d.stats.(assists := v.n))
    case StatsMatches => d.(stats := d.stats.(matches := v.n))
    case StatsMinutesPlayed => d.(stats := d.stats.(minutesPlayed := v.n))
    case ContactEmail => d.(contact := d.contact.(email := v.s))
    case ContactPhone => d.(contact := d.contact.(phone := v.s))
    case SeoTitle => d.(seo := d.seo.(title := v.s))
    case SeoDescription => d.(seo := d.seo.(description := v.s))
    case SeoKeywords => d.(seo := d.seo.(keywords := v.s))
    case SeoImageUrl => d.(seo := d.seo.(imageUrl := v.s))
  }

  /** The social links the contact tab edits through `handleNestedInputChange`. */
  datatype SocialField = Facebook | Instagram | Twitter | LinkedIn

  function SocialLink(d: PlayerData, sf: SocialField): string {
    match sf
    case Facebook => d.contact.socialLinks.facebook
    case Instagram => d.contact.socialLinks.instagram
    case Twitter => d.contact.socialLinks.twitter
    case LinkedIn => d.contact.socialLinks.linkedin
  }

  /** `handleNestedInputChange("contact", "socialLinks", field, value)`: that
      link takes the value; the other links and every other field are unchanged. */
  function NestedInputChange(d: PlayerData, sf: SocialField, url: string): (d': PlayerData)
    ensures SocialLink(d', sf) == url
    ensures forall g :: g != sf ==> SocialLink(d', g) == SocialLink(d, g)
    ensures forall f :: FieldValue(d', f) == FieldValue(d, f)
    ensures d'.skills == d.skills && d'.achievements == d.achievements
    ensures d'.mediaItems == d.mediaItems && d'.backgroundMusic == d.backgroundMusic
  {
    var links := d.contact.socialLinks;
    var links' := match sf
      case Facebook => links.(facebook := url)
      case Instagram => links.(instagram := url)
      case Twitter => links.(twitter := url)
      case LinkedIn => links.(linkedin := url);
    d.(contact := d.contact.(socialLinks := links'))
  }

  /** The `(section, field)` pairs of list elements; every field of a skill,
      an achievement and a media item is one. */
  datatype ItemField =
    | SkillName | SkillValue
    | AchievementTitle | AchievementYear
    | MediaId | MediaType | MediaThumbnail | MediaSource | MediaTitle | MediaDescription

  predicate FitsItem(f: ItemField, v: Scalar) {
    match f
    case SkillValue => v.Number?
    case AchievementYear => v.YearValue?
    case MediaType => v.KindValue?
    case MediaDescription => v.MaybeText?
    case _ => v.Text?
  }

  /** Length of the list that holds field `f`. */
  function ItemCount(d: PlayerData, f: ItemField): nat {
    match f
    case SkillName | SkillValue => |d.skills|
    case AchievementTitle | AchievementYear => |d.achievements|
    case _ => |d.mediaItems|
  }

  /** Reads field `f` of element `i` of its list. */
  function ItemValue(d: PlayerData, f: ItemField, i: nat): (v: Scalar)
    requires i < ItemCount(d, f)
    ensures FitsItem(f, v)
  {
    match f
    case SkillName => Text(d.skills[i].name)
    case SkillValue => Number(d.skills[i].value)
    case AchievementTitle => Text(d.achievements[i].title)
    case AchievementYear => YearValue(d.achievements[i].year)
    case MediaId => Text(d.mediaItems[i].id)
    case MediaType => KindValue(d.mediaItems[i].kind)
    case MediaThumbnail => Text(d.mediaItems[i].thumbnail)
    case MediaSource => Text(d.mediaItems[i].source)
    case MediaTitle => Text(d.mediaItems[i].title)
    case MediaDescription => MaybeText(d.mediaItems[i].description)
  }

  /** `handleArrayItemChange(section, index, field, value)` at an index the
      list's rendering supplies: exactly that field of that element changes;
      lengths and every other element field, list and section are unchanged. */
  function ArrayItemChange(d: PlayerData, f: ItemField, i: nat, v: Scalar): (d': PlayerData)
    requires i < ItemCount(d, f) && FitsItem(f, v)
    ensures forall g :: ItemCount(d', g) == ItemCount(d, g)
    ensures ItemValue(d', f, i) == v
    ensures forall g, j: nat :: j < ItemCount(d, g) && (g != f || j != i) ==> ItemValue(d', g, j) == ItemValue(d, g, j)
    ensures forall g :: FieldValue(d', g) == FieldValue(d, g)
    ensures d'.contact == d.contact && d'.backgroundMusic == d.backgroundMusic
  {
    match f
    case SkillName => d.(skills := d.skills[i := d.skills[i].(name := v.s)])
    case SkillValue => d.(skills := d.skills[i := d.skills[i].(value := v.n)])
    case AchievementTitle => d.(achievements := d.achievements[i := d.achievements[i].(title := v.s)])
    case AchievementYear => d.(achievements := d.achievements[i := d.achievements[i].(year := v.y)])
    case MediaId => d.(mediaItems := d.mediaItems[i := d.mediaItems[i].(id := v.s)])
    case MediaType => d.(mediaItems := d.mediaItems[i := d.mediaItems[i].(kind := v.k)])
    case MediaThumbnail => d.(mediaItems := d.mediaItems[i := d.mediaItems[i].(thumbnail := v.s)])
    case MediaSource => d.(mediaItems := d.mediaItems[i := d.mediaItems[i].(source := v.s)])
    case MediaTitle => d.(mediaItems := d.mediaItems[i := d.mediaItems[i].(title := v.s)])
    case MediaDescription => d.(mediaItems := d.mediaItems[i := d.mediaItems[i].(description := v.o)])
  }

  /** Writing a field's current value back is no change at all. */
  lemma InputChangeSameValue(d: PlayerData, f: Field)
    ensures InputChange(d, f, FieldValue(d, f)) == d
  {
  }

  /** Two edits of the same field: the second one wins. */
  lemma InputChangeOverwrite(d: PlayerData, f: Field, v: Scalar, w: Scalar)
    requires Fits(f, v) && Fits(f, w)
    ensures InputChange(InputChange(d, f, v), f, w) == InputChange(d, f, w)
  {
  }

  // ---------------------------------------------------------------------
  // Removal from a list: `array.splice(index, 1)`
  // ---------------------------------------------------------------------

  /** The array left by `a.splice(i, 1)`: a negative index counts from the
      end (clamped at 0), an index at or past the end removes nothing. */
  function Splice<T>(a: seq<T>, i: int): (r: seq<T>)
    ensures 0 <= i < |a| ==> |r| == |a| - 1
    ensures 0 <= i < |a| ==> forall j :: 0 <= j < i ==> r[j] == a[j]
    ensures 0 <= i < |a| ==> forall j :: i <= j < |r| ==> r[j] == a[j + 1]
    ensures i >= |a| ==> r == a
    ensures -|a| <= i < 0 ==> r == a[..|a| + i] + a[|a| + i + 1..]
    ensures i < -|a| && |a| > 0 ==> r == a[1..]
  {
    var start := if i < 0 then (if |a| + i < 0 then 0 else |a| + i) else i;
    if start < |a| then a[..start] + a[start + 1..] else a
  }

  /** Removal at a valid index keeps exactly the other elements, as a multiset. */
  lemma SpliceMultiset<T>(a: seq<T>, i: int)
    requires 0 <= i < |a|
    ensures multiset(Splice(a, i)) + multiset{a[i]} == multiset(a)
  {
    assert a == a[..i] + [a[i]] + a[i + 1..];
  }

  // ---------------------------------------------------------------------
  // The editor state
  // ---------------------------------------------------------------------

  /** The "new media item" inputs. */
  datatype MediaDraft = MediaDraft(kind: MediaKind, thumbnail: string, source: string, title: string, description: string)

  const EmptyMediaDraft: MediaDraft := MediaDraft(Image, "", "", "", "")

  /** The "new skill" inputs after reset: empty name, value 50. */
  const EmptySkill: Skill := Skill("", 50)

  /** The editor's state: the draft record, the credential form, the three
      "new item" inputs and the three music settings. */
  datatype Editor = Editor(
    form: PlayerData,
    auth: AuthData,
    newSkill: Skill,
    newAchievement: Achievement,
    newMedia: MediaDraft,
    music: Music)

  /** The music settings loaded from a record's optional `backgroundMusic`:
      `url || ""`, `autoPlay || false`, `volume || 0.5`. */
  function MusicSettings(bm: Option<Music>): (m: Music)
    ensures bm.None? ==> m == Music("", false, 0.5)
    ensures bm.Some? ==> m.url == bm.value.url && m.autoPlay == bm.value.autoPlay
    ensures m.volume != 0.0
  {
    match bm
    case None => Music("", false, 0.5)
    case Some(b) => Music(b.url, b.autoPlay, if b.volume == 0.0 then 0.5 else b.volume)
  }

  /** Saved music settings reload unchanged exactly when the volume is not 0;
      a saved volume of 0 reloads as 0.5. */
  lemma MusicReload(m: Music)
    ensures MusicSettings(Some(m)) == m <==> m.volume != 0.0
    ensures m.volume == 0.0 ==> MusicSettings(Some(m)).volume == 0.5
  {
  }

  /** Mounting the editor: the draft starts from `initialData` or `getData`,
      then the mount effect replaces it with the record found in local
      storage, if any, reloading the music settings when that record has them. */
  function Open(initialData: Option<PlayerData>, s: Store, currentYear: int): (e: Editor)
    ensures DataService.StoredRecord(s).Some? ==> e.form == DataService.StoredRecord(s).value
    ensures DataService.StoredRecord(s).None? ==> e.form == initialData.GetOr(DataService.DefaultData)
    ensures e.music == MusicSettings(if e.form.backgroundMusic.Some? then e.form.backgroundMusic
                                     else initialData.GetOr(DataService.GetData(s)).backgroundMusic)
    ensures e.auth == AuthService.GetAuthData(s)
    ensures e.newSkill == EmptySkill && e.newMedia == EmptyMediaDraft
    ensures e.newAchievement == Achievement("", YearNumber(currentYear))
  {
    var form0 := initialData.GetOr(DataService.GetData(s));
    var e0 := Editor(form0, AuthService.GetAuthData(s), EmptySkill,
                     Achievement("", YearNumber(currentYear)), EmptyMediaDraft,
                     MusicSettings(form0.backgroundMusic));
    match DataService.StoredRecord(s)
    case None => e0
    case Some(d) =>
      if d.backgroundMusic.Some? then e0.(form := d, music := MusicSettings(d.backgroundMusic))
      else e0.(form := d)
  }

  /** `addSkill`: a name blank after trimming changes nothing; otherwise the
      new skill is appended as entered (its value is not clamped) and the
      inputs reset to `EmptySkill`. */
  function AddSkill(e: Editor): (e': Editor)
    ensures IsBlank(e.newSkill.name) ==> e' == e
    ensures !IsBlank(e.newSkill.name) ==>
              && e'.form.skills == e.form.skills + [e.newSkill]
              && e'.form.(skills := e.form.skills) == e.form
              && e' == e.(form := e'.form, newSkill := EmptySkill)
  {
    if IsBlank(e.newSkill.name) then e
    else e.(form := e.form.(skills := e.form.skills + [e.newSkill]), newSkill := EmptySkill)
  }

  /** `removeSkill(index)`. */
  function RemoveSkill(e: Editor, i: int): (e': Editor)
    ensures 0 <= i < |e.form.skills| ==> e'.form.skills == e.form.skills[..i] + e.form.skills[i + 1..]
    ensures i >= |e.form.skills| ==> e' == e
    ensures e'.form.(skills := e.form.skills) == e.form && e' == e.(form := e'.form)
  {
    e.(form := e.form.(skills := Splice(e.form.skills, i)))
  }

  /** `addAchievement`: a title blank after trimming changes nothing;
      otherwise the entry is appended and the inputs reset to an empty title
      and the current year. */
  function AddAchievement(e: Editor, currentYear: int): (e': Editor)
    ensures IsBlank(e.newAchievement.title) ==> e' == e
    ensures !IsBlank(e.newAchievement.title) ==>
              && e'.form.achievements == e.form.achievements + [e.newAchievement]
              && e'.form.(achievements := e.form.achievements) == e.form
              && e' == e.(form := e'.form, newAchievement := Achievement("", YearNumber(currentYear)))
  {
    if IsBlank(e.newAchievement.title) then e
    else e.(form := e.form.(achievements := e.form.achievements + [e.newAchievement]),
            newAchievement := Achievement("", YearNumber(currentYear)))
  }

  /** `removeAchievement(index)`. */
  function RemoveAchievement(e: Editor, i: int): (e': Editor)
    ensures 0 <= i < |e.form.achievements| ==> e'.form.achievements == e.form.achievements[..i] + e.form.achievements[i + 1..]
    ensures i >= |e.form.achievements| ==> e' == e
    ensures e'.form.(achievements := e.form.achievements) == e.form && e' == e.(form := e'.form)
  {
    e.(form := e.form.(achievements := Splice(e.form.achievements, i)))
  }

  /** The item `addMediaItem` builds: the generated id, and the source as
      thumbnail when the thumbnail input is empty. */
  function NewMediaItem(m: MediaDraft, id: string): (item: MediaItem)
    ensures item.id == id && item.source == m.source && item.title == m.title && item.kind == m.kind
    ensures item.thumbnail == (if m.thumbnail == "" then m.source else m.thumbnail)
    ensures item.description == Some(m.description)
  {
    MediaItem(id, m.kind, if m.thumbnail != "" then m.thumbnail else m.source, m.source, m.title, Some(m.description))
  }

  /** `addMediaItem` with the id `Date.now().toString()` supplied: a title
      or source blank after trimming changes nothing; otherwise exactly one
      item is appended and the inputs are cleared. */
  function AddMediaItem(e: Editor, id: string): (e': Editor)
    ensures IsBlank(e.newMedia.title) || IsBlank(e.newMedia.source) ==> e' == e
    ensures !IsBlank(e.newMedia.title) && !IsBlank(e.newMedia.source) ==>
              && |e'.form.mediaItems| == |e.form.mediaItems| + 1
              && e'.form.mediaItems[..|e.form.mediaItems|] == e.form.mediaItems
              && e'.form.mediaItems[|e.form.mediaItems|] == NewMediaItem(e.newMedia, id)
              && e'.form.(mediaItems := e.form.mediaItems) == e.form
              && e' == e.(form := e'.form, newMedia := EmptyMediaDraft)
  {
    if IsBlank(e.newMedia.title) || IsBlank(e.newMedia.source) then e
    else e.(form := e.form.(mediaItems := e.form.mediaItems + [NewMediaItem(e.newMedia, id)]),
            newMedia := EmptyMediaDraft)
  }

  /** `removeMediaItem(index)`. */
  function RemoveMediaItem(e: Editor, i: int): (e': Editor)
    ensures 0 <= i < |e.form.mediaItems| ==> e'.form.mediaItems == e.form.mediaItems[..i] + e.form.mediaItems[i + 1..]
    ensures i >= |e.form.mediaItems| ==> e' == e
    ensures e'.form.(mediaItems := e.form.mediaItems) == e.form && e' == e.(form := e'.form)
  {
    e.(form := e.form.(mediaItems := Splice(e.form.mediaItems, i)))
  }

  /** A title of white space only is refused, even with a non-empty source. */
  lemma AddMediaRefusesSpaces(e: Editor, id: string)
    requires AllSpace(e.newMedia.title) && e.newMedia.source != ""
    ensures AddMediaItem(e, id) == e
  {
    BlankIffAllSpace(e.newMedia.title);
  }

  /** The thumbnail falls back to the source only when it is empty, not when
      it is blank: a non-empty thumbnail of white space only is kept, although
      the same text as a title or source would be refused. */
  lemma ThumbnailFallbackIsNotTrimmed(m: MediaDraft, id: string)
    requires m.thumbnail != "" && AllSpace(m.thumbnail)
    ensures NewMediaItem(m, id).thumbnail == m.thumbnail && IsBlank(m.thumbnail)
  {
    BlankIffAllSpace(m.thumbnail);
  }

  /** The record `handleSave` sends: the draft with its music section
      overwritten by the three music settings. */
  function SaveRecord(e: Editor): (d: PlayerData)
    ensures d.backgroundMusic == Some(e.music)
    ensures d.(backgroundMusic := e.form.backgroundMusic) == e.form
  {
    e.form.(backgroundMusic := Some(e.music))
  }

  /** The outcome of `handleSave`. */
  datatype Saving = Saving(editor: Editor, saved: PlayerDataService.Saved)

  /** `handleSave`: write `SaveRecord(e)` to local storage, then hand it to
      `savePlayerData`; the draft becomes that record only on reported success. */
  function HandleSave(e: Editor, configured: bool, writable: bool, upsertOk: bool,
                      s: Store, t: PlayerDataService.Table): (r: Saving)
    ensures r.saved.store == DataService.SaveData(s, SaveRecord(e), writable).store
    ensures writable ==> DataService.GetData(r.saved.store) == SaveRecord(e)
    ensures r.saved.ok ==> r.editor == e.(form := SaveRecord(e))
    ensures !r.saved.ok ==> r.editor == e
    ensures r.saved.ok <==> !configured || upsertOk
    ensures r.saved.ok && configured ==> r.saved.table == t[PlayerDataService.RowId := Some(SaveRecord(e))]
  {
    var d := SaveRecord(e);
    var local := DataService.SaveData(s, d, writable).store;
    var saved := PlayerDataService.SavePlayerData(configured, writable, upsertOk, local, t, d);
    Saving(if saved.ok then e.(form := d) else e, saved)
  }

  /** The outcome of a local-only editor action: the editor and the store. */
  datatype Local = Local(editor: Editor, store: Store)

  /** `handleReset`, with the `confirm` answer as input: reset the local
      record and, if that succeeded, reload the draft from it. The remote
      table and the music settings are not touched. */
  function HandleReset(e: Editor, confirmed: bool, writable: bool, s: Store): (r: Local)
    ensures confirmed && writable ==> r.editor == e.(form := DataService.DefaultData)
    ensures confirmed && writable ==> DataService.GetData(r.store) == DataService.DefaultData
    ensures !(confirmed && writable) ==> r == Local(e, s)
  {
    if !confirmed then Local(e, s)
    else
      var w := DataService.ResetData(s, writable);
      if w.ok then Local(e.(form := DataService.GetData(w.store)), w.store) else Local(e, w.store)
  }

  /** The credential tab's save button: stores the form's credentials, after
      which exactly those credentials validate. */
  function SaveCredentials(e: Editor, s: Store, writable: bool): (w: Written)
    ensures w.ok <==> writable
    ensures w.ok ==> forall u, p :: AuthService.ValidateCredentials(w.store, u, p) <==> u == e.auth.username && p == e.auth.password
    ensures DataService.GetData(w.store) == DataService.GetData(s)
  {
    AuthService.SaveAuthData(s, e.auth, writable)
  }

  /** The credential tab's reset button, with the `confirm` answer as input:
      reset the stored credentials and reload the form from the store, which
      shows the defaults only if the reset write succeeded. */
  function ResetCredentials(e: Editor, confirmed: bool, writable: bool, s: Store): (r: Local)
    ensures confirmed && writable ==> r.editor.auth == AuthService.DefaultAuth
    ensures confirmed && !writable ==> r.editor.auth == AuthService.GetAuthData(s) && r.store == s
    ensures !confirmed ==> r == Local(e, s)
    ensures r.editor == e.(auth := r.editor.auth)
  {
    if !confirmed then Local(e, s)
    else
      var w := AuthService.ResetAuthData(s, writable);
      Local(e.(auth := AuthService.GetAuthData(w.store)), w.store)
  }
}
