/** The shapes of the single player aggregate record and of the admin
    credential record (the `PlayerData` and `AuthData` interfaces). */
module Records {
  import opened Wrappers

  datatype Player = Player(
    name: string,
    position: string,
    age: int,
    nationality: string,
    height: string,
    weight: string,
    club: string,
    profileImage: string,
    highlightVideo: string,
    bio: string)

  datatype Stats = Stats(goals: int, assists: int, matches: int, minutesPlayed: int)

  /** `value` is documented as 0..100 but nothing enforces it. */
  datatype Skill = Skill(name: string, value: int)

  /** An achievement's year is `string | number`: the defaults hold numbers,
      the editor's year input stores the text typed. */
  datatype Year = YearNumber(n: int) | YearText(text: string)

  datatype Achievement = Achievement(title: string, year: Year)

  datatype SocialLinks = SocialLinks(facebook: string, instagram: string, twitter: string, linkedin: string)

  datatype Contact = Contact(email: string, phone: string, socialLinks: SocialLinks)

  datatype Seo = Seo(title: string, description: string, keywords: string, imageUrl: string)

  datatype MediaKind = Image | Video

  datatype MediaItem = MediaItem(
    id: string,
    kind: MediaKind,
    thumbnail: string,
    source: string,
    title: string,
    description: Option<string>)

  /** `volume` is documented as a fraction in [0, 1] but nothing enforces it. */
  datatype Music = Music(url: string, autoPlay: bool, volume: real)

  datatype PlayerData = PlayerData(
    player: Player,
    stats: Stats,
    skills: seq<Skill>,
    achievements: seq<Achievement>,
    contact: Contact,
    seo: Seo,
    mediaItems: seq<MediaItem>,
    backgroundMusic: Option<Music>)

  datatype AuthData = AuthData(username: string, password: string, whatsappNumber: string)

  /** The six sample media items. The same list is the default record's media
      section and the gallery's built-in items. */
  const SampleMediaItems: seq<MediaItem> := [
    MediaItem("1", Video,
      "https://images.unsplash.com/photo-1560272564-c83b66b1ad12?w=800&q=80",
      "https://player.vimeo.com/external/373803358.sd.mp4?s=388f7d5b5ceb30e62c71c0f8137156de8abe3a0f&profile_id=165&oauth2_token_id=57447761",
      "Goal against Barcelona",
      Some("Amazing goal scored in the Champions League quarterfinals")),
    MediaItem("2", Image,
      "https://images.unsplash.com/photo-1517466787929-bc90951d0974?w=800&q=80",
      "https://images.unsplash.com/photo-1517466787929-bc90951d0974?w=1200&q=80",
      "Professional photoshoot",
      Some("Official team photoshoot for the current season")),
    MediaItem("3", Video,
      "https://images.unsplash.com/photo-1574629810360-7efbbe195018?w=800&q=80",
      "https://player.vimeo.com/external/370467031.sd.mp4?s=32d2aa1c88e69c6f6fecbec0af8cc801daf27b33&profile_id=165&oauth2_token_id=57447761",
      "Free kick technique",
      Some("Compilation of the best free kicks from last season")),
    MediaItem("4", Image,
      "https://images.unsplash.com/photo-1543326727-cf6c39e8f84c?w=800&q=80",
      "https://images.unsplash.com/photo-1543326727-cf6c39e8f84c?w=1200&q=80",
      "Trophy celebration",
      Some("Celebrating the league title with teammates")),
    MediaItem("5", Video,
      "https://images.unsplash.com/photo-1518091043644-c1d4457512c6?w=800&q=80",
      "https://player.vimeo.com/external/371433846.sd.mp4?s=236da2f62a23d39fd9a85bbcf4b0848e8d42a6dc&profile_id=165&oauth2_token_id=57447761",
      "Training session highlights",
      Some("Behind the scenes from pre-season training")),
    MediaItem("6", Image,
      "https://images.unsplash.com/photo-1508098682722-e99c643e7f0b?w=800&q=80",
      "https://images.unsplash.com/photo-1508098682722-e99c643e7f0b?w=1200&q=80",
      "Fan interaction",
      Some("Meeting with supporters after an important match"))
  ]
}
