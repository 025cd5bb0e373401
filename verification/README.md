# Football showcase: a Dafny model of the data and interaction logic

This project models the logic behind a single-player football showcase site. The site has a public profile page and an admin panel that edits the same aggregate record. The record is kept in browser local storage and, when a hosted database is configured, in a single-row remote table with realtime change notifications. Storage and the network are abstracted away: local storage is a map from key to value, and the remote table is a map from row id to the row's `data` column. Whether the backend is configured, and whether each remote call or local write succeeds, are boolean inputs. Every operation is a pure function over immutable datatypes. The carousel's thumbnail window is the one method with a loop.

Modules, one per source file or concept:

- `Wrappers` holds `Option`, used for JavaScript values that may be `undefined` or `null`.
- `JsText` holds `String.prototype.trim` over the ECMAScript white-space set, plus the facts used to split a text at a separator.
- `Records` holds the `PlayerData` and `AuthData` shapes and the six sample media items.
- `LocalStore` holds the key-value store, its two keys and a write that can fail.
- `DataService` and `AuthService` are the local persistence adapters: read with default fallback, save, reset, and credential checks.
- `PlayerDataService` is the local-first sync layer: `initializeDatabase`, `getPlayerData`, `savePlayerData` and `subscribeToPlayerData`.
- `AdminPanel` holds the editor's transitions, lifted out of its `setState` closures: single-field edits, add and remove on the three lists, music settings, save and reset.
- `Home` holds the public page's section-wise merge and its mount, notify and unmount flow.
- `MediaGallery` holds the carousel's wrap-around index, its five-slot window and its modal flags.
- `ContactSection` holds the WhatsApp message, the number selection and the link.
- `MusicPlayer` holds the play, mute and volume state machine.

`handleReset` resets the local record and reloads the draft from it. The remote table is not touched, so `AdminPanel.HandleReset` takes no table.

`visibleThumbnails` (src/components/MediaGallery.tsx:189-200) is defined but never called. The thumbnail strip renders every item (src/components/MediaGallery.tsx:275-279). `MediaGallery.VisibleThumbnails` models the function as written; the five-slot window is not what the page shows.

## Model

| member | source | states |
|---|---|---|
| `LocalStore.Put` | src/components/admin/DataService.ts:198-204 | A write either succeeds and sets exactly that key, or fails, is reported as `false` and changes nothing; other keys are never touched |
| `DataService.GetData` | src/components/admin/DataService.ts:184-194 | With the key absent, or holding text that is not a usable record, the result is exactly `DefaultData`; otherwise it is the stored record |
| `DataService.SaveData` | src/components/admin/DataService.ts:197-205 | The flag is true iff the write succeeded; after a success `GetData` returns the saved record; after a failure the store is unchanged; keys other than `playerShowcaseData` never change |
| `DataService.ResetData` | src/components/admin/DataService.ts:208-216 | After a successful reset `GetData` returns `DefaultData`; failure is reported and changes nothing; other keys unchanged |
| `DataService.GetDataReadsOnlyPlayerKey` | src/components/admin/DataService.ts:186 | Two stores that agree on `playerShowcaseData` read the same record |
| `DataService.SaveKeepsOutOfRangeValues` | src/components/admin/DataService.ts:197-200 | There is no validation: skill values 150 and -3 and a volume of 2.0 are read back exactly as saved |
| `AuthService.GetAuthData` | src/components/admin/AuthService.ts:20-30 | With `adminAuthData` absent or unusable the result is `DefaultAuth`; otherwise it is the stored credentials |
| `AuthService.SaveAuthData` | src/components/admin/AuthService.ts:33-41 | Save then read returns the saved credentials; failure is reported and changes nothing; the player record and other keys are untouched |
| `AuthService.ResetAuthData` | src/components/admin/AuthService.ts:44-52 | Reset then read returns `DefaultAuth`; the player record and other keys are untouched |
| `AuthService.ValidateDefaults` | src/components/admin/AuthService.ts:55-61 | With no usable stored credentials, exactly the default pair validates |
| `AuthService.ValidateAfterSave` | src/components/admin/AuthService.ts:55-61 | After saving `a`, a login validates iff the username and password equal `a`'s exactly, case included |
| `AuthService.DefaultRefusedAfterChange` | src/components/admin/AuthService.ts:33-61 | After saving credentials that differ from the defaults, the default pair is refused |
| `AuthService.WhatsAppNumberVerbatim` | src/components/admin/AuthService.ts:64-67 | `getWhatsAppNumber` returns the saved number verbatim, the empty string included |
| `PlayerDataService.InitializeDatabase` | src/lib/playerDataService.ts:10-40 | No-op when unconfigured or when the table has rows. The table changes iff the backend is configured, check and insert succeed, and the table was empty; the table then holds exactly row 1 with what `getData` returns. Failures leave the table as it was and are not raised |
| `PlayerDataService.InitializeIdempotent` | src/lib/playerDataService.ts:26-36 | Once a first call leaves the table non-empty, a second call inserts nothing, whatever its own outcomes |
| `PlayerDataService.InitializeEmptyTable` | src/lib/playerDataService.ts:26-33 | On an empty table the single inserted row holds the locally stored record if there is one, and the defaults otherwise |
| `PlayerDataService.GetPlayerData` | src/lib/playerDataService.ts:43-63 | When unconfigured, when the read fails or when row 1 is missing, the result is exactly `getData()`; otherwise it is row 1's data column, which may be null |
| `PlayerDataService.SavePlayerData` | src/lib/playerDataService.ts:66-87 | The local store always receives the record first, whatever the configuration or remote outcome. Unconfigured: true, table untouched. Configured: true iff the upsert succeeds, which sets row 1 to the record; false leaves the table as it was |
| `PlayerDataService.SaveThenGet` | src/lib/playerDataService.ts:43-87 | A read after a save returns the saved record when it is served locally (no backend, a failed read, or no row 1) and the local write succeeded, or when it is served remotely after a successful upsert. After a failed upsert a configured read returns the old row |
| `PlayerDataService.LocalOnlySaveIgnoresWriteFailure` | src/lib/playerDataService.ts:66-72 | In local-only mode a save reports true even when the local write failed and the old record is still stored |
| `PlayerDataService.Subscribe` | src/lib/playerDataService.ts:90-96 | The subscription is live iff the backend is configured; unconfigured gives the disabled subscription |
| `PlayerDataService.Unsubscribe` | src/lib/playerDataService.ts:95-121 | After unsubscribing nothing is listening; for a disabled subscription the function does nothing |
| `PlayerDataService.Notify` | src/lib/playerDataService.ts:105-113 | The callback fires iff the channel is live, the change is for row 1 and the payload carries new data; it receives exactly that data |
| `PlayerDataService.NotificationsAppend` | src/lib/playerDataService.ts:108-113 | Callbacks for two notification streams in turn are the first stream's followed by the second's |
| `PlayerDataService.NotificationsFromChanges` | src/lib/playerDataService.ts:108-113 | At most one callback per notification; every delivered record was the data of a row-1 notification |
| `PlayerDataService.NotificationsComplete` | src/lib/playerDataService.ts:108-113 | On a live channel, a stream made only of row-1 notifications with data is delivered one record per notification, in order |
| `PlayerDataService.NotificationDelivered` | src/lib/playerDataService.ts:108-113 | In any stream on a live channel, each row-1 notification with data is delivered in its place: after the earlier notifications' records and before the later ones' |
| `PlayerDataService.NothingAfterUnsubscribe` | src/lib/playerDataService.ts:117-121 | After unsubscribing no notification reaches the callback |
| `JsText.BlankIffAllSpace` | src/components/admin/AdminPanel.tsx:137 | `s.trim() === ""` holds iff every character of `s` is ECMAScript white space or a line terminator |
| `AdminPanel.InputChange` | src/components/admin/AdminPanel.tsx:94-102 | The edited field reads back the new value; every other field, list, link and the music section are unchanged; no range check |
| `AdminPanel.InputChangeSameValue` | src/components/admin/AdminPanel.tsx:94-102 | Writing a field's current value back leaves the record unchanged |
| `AdminPanel.InputChangeOverwrite` | src/components/admin/AdminPanel.tsx:94-102 | Of two edits of one field, the second wins |
| `AdminPanel.NestedInputChange` | src/components/admin/AdminPanel.tsx:104-120 | Only the chosen social link changes; the other links, every field and every list are unchanged |
| `AdminPanel.ArrayItemChange` | src/components/admin/AdminPanel.tsx:122-134 | Only that field of element `i` changes. List lengths, other elements, other fields of element `i`, the scalar fields, the contact and the music are unchanged; skill values are not clamped |
| `AdminPanel.Splice` | src/components/admin/AdminPanel.tsx:145-152 | At a valid index, exactly that element goes: the length drops by one and the rest keep their order. A negative index `i` with `-n <= i < 0` removes element `n + i` and keeps the rest in order; an index below `-n` removes the first element; an index at or past the end removes nothing |
| `AdminPanel.SpliceMultiset` | src/components/admin/AdminPanel.tsx:145-152 | Removal at a valid index keeps the multiset of the other elements |
| `AdminPanel.MusicSettings` | src/components/admin/AdminPanel.tsx:62-70 | With no music section: `""`, `false`, `0.5`. Otherwise url and autoPlay are kept, and the loaded volume is never 0 |
| `AdminPanel.MusicReload` | src/components/admin/AdminPanel.tsx:83-87 | Saved music settings reload unchanged iff the volume is not 0; a saved 0 comes back as 0.5 |
| `AdminPanel.Open` | src/components/admin/AdminPanel.tsx:44-92 | A usable stored record replaces the draft, overriding `initialData`; otherwise the draft is `initialData` or the defaults. Music settings come from the final draft's music or, when it has none, from the first draft's (`initialData`, or `getData()` without it). Credentials come from the store; the new-item inputs start empty |
| `AdminPanel.AddSkill` | src/components/admin/AdminPanel.tsx:136-143 | A name that is blank after trimming changes nothing. Otherwise exactly `newSkill` is appended as entered, nothing else in the draft changes, and the input resets to `{"", 50}` |
| `AdminPanel.RemoveSkill` | src/components/admin/AdminPanel.tsx:145-152 | At a valid index the skills become those before plus those after it; no other part of the editor changes |
| `AdminPanel.AddAchievement` | src/components/admin/AdminPanel.tsx:154-161 | A blank title after trimming changes nothing; otherwise exactly one entry is appended and the inputs reset to the current year |
| `AdminPanel.RemoveAchievement` | src/components/admin/AdminPanel.tsx:163-170 | Deletes exactly element `i`, with the others kept in order and nothing else changed |
| `AdminPanel.NewMediaItem` | src/components/admin/AdminPanel.tsx:175-179 | The item carries the given id; its thumbnail is the input's thumbnail, or the source when that is empty |
| `AdminPanel.AddMediaItem` | src/components/admin/AdminPanel.tsx:172-194 | A blank title or source after trimming changes nothing. Otherwise exactly one item is appended after the old ones, nothing else changes, and the inputs are cleared |
| `AdminPanel.AddMediaRefusesSpaces` | src/components/admin/AdminPanel.tsx:173-174 | A title made only of white space is refused even with a non-empty source |
| `AdminPanel.ThumbnailFallbackIsNotTrimmed` | src/components/admin/AdminPanel.tsx:173-178 | The fallback tests emptiness, not blankness: any non-empty thumbnail of white space only is kept, though it is blank in the sense of the title and source guard |
| `AdminPanel.RemoveMediaItem` | src/components/admin/AdminPanel.tsx:196-203 | Deletes exactly element `i`, with the others kept in order and nothing else changed |
| `AdminPanel.SaveRecord` | src/components/admin/AdminPanel.tsx:207-214 | The saved record is the draft with `backgroundMusic` overwritten by the three music settings and nothing else changed |
| `AdminPanel.HandleSave` | src/components/admin/AdminPanel.tsx:205-237 | Local storage ends holding the saved record whenever writable, whatever the remote outcome. The draft becomes that record only on reported success, which means unconfigured or a successful upsert; on failure the editor is unchanged |
| `AdminPanel.HandleReset` | src/components/admin/AdminPanel.tsx:239-253 | Confirmed and writable: the draft becomes `DefaultData` and local storage reads `DefaultData`, with the music settings kept. Otherwise nothing changes |
| `AdminPanel.SaveCredentials` | src/components/admin/AdminPanel.tsx:1148-1157 | After a successful save exactly the form's username and password validate; the player record is untouched |
| `AdminPanel.ResetCredentials` | src/components/admin/AdminPanel.tsx:1132-1142 | Confirmed: the form shows the defaults if the reset write succeeded and the still-stored credentials if it failed. Only the credential form changes |
| `Home.Merge` | src/components/home.tsx:117-126 | Each of the eight sections present in the incoming data replaces the page's; each absent one keeps the page's |
| `Home.MergeIdempotent` | src/components/home.tsx:117-126 | Applying the same data twice equals applying it once |
| `Home.MergeNothing` | src/components/home.tsx:117-126 | Data with no sections leaves the page unchanged |
| `Home.MergeFullRecord` | src/components/home.tsx:117-126 | A full record with music fixes the whole page regardless of what was shown; without music it fixes all but the music |
| `Home.MergeLastWins` | src/components/home.tsx:117-126 | Of two full records merged in turn, the later one wins when it carries music settings |
| `Home.LoadFromLocalStorage` | src/components/home.tsx:129-139 | A usable stored record is merged; an absent or unparsable value leaves the page unchanged |
| `Home.LoadInitial` | src/components/home.tsx:91-100 | The fetched record goes through the merge; a null fetch result, where the merge throws, falls back to the local store |
| `Home.Mount` | src/components/home.tsx:86-108 | Unconfigured, configured with a failed read, or configured with row 1 missing: the page shows the merge of `getData()`. Configured, read succeeded, row 1 has data: that data is merged. Row 1's data null: the page falls back to `loadFromLocalStorage`. The page is listening iff the backend is configured |
| `Home.MountFromInitialPage` | src/components/home.tsx:18-83 | Without a backend, mounting the page's initial state replaces every section with the local record's, the initial SEO included; the initial silent music survives only when the record has none |
| `Home.OnChange` | src/components/home.tsx:105-108 | A notification that reaches the callback is merged exactly like the initial load; one that does not leaves the page alone |
| `Home.OnChangesMergesNotifications` | src/components/home.tsx:105-108 | A notification stream leaves the page as the in-order merge of the records the callback receives |
| `Home.Unmount` | src/components/home.tsx:110-113 | Unmounting stops listening and keeps the page |
| `Home.NoUpdatesAfterUnmount` | src/components/home.tsx:110-113 | After unmount no notification changes the page |
| `Home.GalleryItems` | src/components/home.tsx:203 | The gallery gets the page's media when non-empty and its built-in items otherwise, so always at least one item |
| `Home.EmptyMediaShowsBuiltIns` | src/components/home.tsx:203 | A record with an empty media list shows the built-in items |
| `Home.MusicPlayerShownIffRenders` | src/components/home.tsx:144-152 | The page mounts the music player iff the player would render, which needs a non-empty URL |
| `MediaGallery.Next` | src/components/MediaGallery.tsx:99-103 | The next index is `(i + 1) mod n`, inside `[0, n)` |
| `MediaGallery.Previous` | src/components/MediaGallery.tsx:93-97 | The previous index is `(i - 1) mod n`, inside `[0, n)`; from 0 it goes to `n - 1` |
| `MediaGallery.NextPreviousInverse` | src/components/MediaGallery.tsx:93-103 | Next after previous, and previous after next, return the original index |
| `MediaGallery.Advance` | src/components/MediaGallery.tsx:99-103 | Any number of next presses keeps the index in range |
| `MediaGallery.AdvanceIsModular` | src/components/MediaGallery.tsx:99-103 | `k` next presses move the index to `(i + k) mod n` |
| `MediaGallery.FullCycle` | src/components/MediaGallery.tsx:99-103 | `n` next presses return to the start |
| `MediaGallery.VisibleThumbnails` | src/components/MediaGallery.tsx:189-200 | Exactly 5 items; item `k` is `items[(index + k) mod n]`; item 0 is the current one; with fewer than 5 items the list repeats |
| `MediaGallery.HandleNext` | src/components/MediaGallery.tsx:99-103 | Keeps the index valid and changes only the index |
| `MediaGallery.HandlePrevious` | src/components/MediaGallery.tsx:93-97 | Keeps the index valid and changes only the index |
| `MediaGallery.InitialGalleryWraps` | src/components/MediaGallery.tsx:87-97 | The carousel starts valid on item 0 with no modal and not playing; going back from there shows the last item |
| `MediaGallery.ThumbnailClick` | src/components/MediaGallery.tsx:105-107 | Sets the index to the clicked thumbnail's and changes nothing else |
| `MediaGallery.MediaClick` | src/components/MediaGallery.tsx:109-120 | Selects the item and keeps the index. Opening a video sets playing to false; opening an image leaves the flag |
| `MediaGallery.CloseModal` | src/components/MediaGallery.tsx:122-125 | Clears the selection and sets playing to false |
| `MediaGallery.TogglePlayPause` | src/components/MediaGallery.tsx:127-136 | Flips the playing flag only when the video element exists; otherwise nothing changes |
| `MediaGallery.OnVideoEvent` | src/components/MediaGallery.tsx:139-156 | `play` sets playing; `pause` and `ended` clear it |
| `ContactSection.ContactNumber` | src/components/ContactSection.tsx:129-141 | Nothing, unparsable or an empty number stored: `5521977434614`. A stored non-empty number is used. The result is never empty |
| `ContactSection.ContactNumberVersusService` | src/components/ContactSection.tsx:129-141 | The button's number equals `getWhatsAppNumber` iff the latter is non-empty; they differ exactly on a stored empty number |
| `ContactSection.MessageTextInjective` | src/components/ContactSection.tsx:126 | The text "Nome: …\nEmail: …\nOrganização: …\nMensagem: …" determines the four fields when the first three are single lines |
| `ContactSection.SendMessageInjective` | src/components/ContactSection.tsx:105-147 | With a one-to-one encoder and a number without `?`, the opened link determines the four form texts, the first three being single lines |
| `ContactSection.WhatsAppUrlInjective` | src/components/ContactSection.tsx:143-146 | The `https://wa.me/<number>?text=<encoded>` link determines the number and the encoded text, for numbers without `?` |
| `MusicPlayer.Init` | src/components/MusicPlayer.tsx:19-21 | Playing equals autoPlay, the volume is the initial volume, and the player starts unmuted |
| `MusicPlayer.TogglePlay` | src/components/MusicPlayer.tsx:72-74 | Flips playing and changes nothing else |
| `MusicPlayer.ToggleMute` | src/components/MusicPlayer.tsx:76-78 | Flips muted and changes nothing else |
| `MusicPlayer.VolumeChange` | src/components/MusicPlayer.tsx:80-86 | The volume becomes `v`. A positive `v` unmutes; `v = 0` leaves mute as it was; playing is unchanged |
| `MusicPlayer.PlayRejected` | src/components/MusicPlayer.tsx:50-55 | A rejected play request sets playing to false and changes nothing else |
| `MusicPlayer.SliderShowsAppliedVolume` | src/components/MusicPlayer.tsx:62-70 | The slider shows the volume the element plays at: 0 when muted, the stored volume otherwise. The muted icon shows iff that is 0 |
| `MusicPlayer.TogglesAreInvolutions` | src/components/MusicPlayer.tsx:72-78 | Each toggle undoes itself, and the two toggles commute |
| `MusicPlayer.VolumeChangeAudible` | src/components/MusicPlayer.tsx:80-86 | A positive slider value becomes audible even when muted; 0 silences |
| `MusicPlayer.InitAudible` | src/components/MusicPlayer.tsx:19-21 | A fresh player plays at its initial volume |

Some functions carry no contract and are stated through the lemmas above:

- `AuthService.ValidateCredentials` and `AuthService.GetWhatsAppNumber`
- `ContactSection.MessageText`, `ContactSection.WhatsAppUrl` and `ContactSection.SendMessage`
- `PlayerDataService.Notifications`
- `Home.OnChanges` and `Home.MergeAll`
- `MusicPlayer.AppliedVolume`, `MusicPlayer.SliderValue` and `MusicPlayer.ShowsMutedIcon`

## Left out

- JSON serialisation and payload shape. A stored text that is empty, not JSON, or JSON of another shape is one value, `Unusable`, and every reader treats it as unparsable. The source would return a parsed value of the wrong shape as if it were a record.
- The hosted database client and the configuration check (`src/lib/supabase` is not part of this model). "Configured" and each remote call's success are inputs. The `updated_at` timestamp is not modelled.
- `PlayerDataService.GetPlayerData`: a missing row 1 is treated as a read error. That is what `.single()` reports.
- `Home.Mount`: `initializeDatabase` is started without being awaited, so the read races with it. The model takes the table the read sees as an input. The race between a local save and an incoming notification is also left out: it is an event-loop ordering concern.
- `AdminPanel.HandleSave`: the two local writes (`saveData`, then inside `savePlayerData`) share one "writable" input, because a deterministic store answers both alike. The `onSave` callback and the alerts are not modelled.
- `AdminPanel.AddMediaItem`: the id `Date.now().toString()` is a parameter. Its uniqueness is not claimed, because the code does not guarantee it.
- `alert`, `window.confirm`, `navigate`, `window.open` and `encodeURIComponent` are browser effects. The confirm answer is a boolean input, and the encoder is a function parameter.
- `AdminPanel.InputChange`, `AdminPanel.ArrayItemChange`: values must have the field's type (the inputs pass `parseInt` for numbers). A `NaN` from `parseInt` and writes of another type are not modelled. Numbers are unbounded integers, and volumes are exact reals with no NaN.
- `AdminPanel.NestedInputChange`: only `contact.socialLinks` is modelled, the one nested section the editor uses.
- The plain setters of the editor's inputs are not modelled: the new-item fields, the music URL, autoplay and volume slider, and the credential fields. Each only assigns one state variable.
- `MediaGallery`: navigation, thumbnail clicks and the five-slot window require a non-empty list and an in-range index, as the component indexes `mediaItems[currentIndex]` unguarded. The index is not reset when the list changes. Lazy image loading, the `setTimeout` video reload and the media elements themselves are left out.
- `MusicPlayer`: the audio element is reduced to the volume it is given and the outcome of a play request. Creating and reloading the element on a URL change is left out.
- Presentation-only components are not part of this model: the hero, profile and SEO sections, the login and configuration screens, routing, and the build configuration. The login session flag is also left out.
