/** The local persistence adapter for the player record: read with a
    fallback to the compiled-in defaults, save, and reset. */
module DataService {
  import opened Wrappers
  import opened Records
  import opened LocalStore

  /** The compiled-in record returned whenever nothing usable is stored. */
  const DefaultData: PlayerData := PlayerData(
    Player(
      "Cristiano Santos",
      "Atacante / Ponta Esquerda",
      24,
      "Brasil",
      "1.85m",
      "78kg",
      "FC Barcelona",
      "https://images.unsplash.com/photo-1579952363873-27f3bade9f55?w=800&q=80",
      "https://player.vimeo.com/external/371433846.sd.mp4?s=236da2f3c0fd273d2c6d9a064f3ae35579b2bbdf&profile_id=139&oauth2_token_id=57447761",
      "Cristiano Santos é um atacante versátil conhecido por sua velocidade explosiva e finalização precisa. Formado nas categorias de base do Santos FC, ganhou destaque internacional após sua transferência para a Europa. Sua capacidade de jogar em múltiplas posições no ataque e sua mentalidade competitiva o tornaram um dos jogadores mais promissores de sua geração."),
    Stats(87, 42, 156, 12480),
    [ Skill("Finalização", 92),
      Skill("Velocidade", 88),
      Skill("Drible", 85),
      Skill("Passe", 78),
      Skill("Força Física", 75),
      Skill("Visão de Jogo", 82) ],
    [ Achievement("Campeão Nacional", YearNumber(2022)),
      Achievement("Artilheiro da Temporada", YearNumber(2021)),
      Achievement("Melhor Jogador Jovem", YearNumber(2020)),
      Achievement("Copa Internacional Sub-20", YearNumber(2019)) ],
    Contact(
      "contato@cristianosantos.com",
      "+55 11 99999-9999",
      SocialLinks(
        "https://facebook.com/cristianosantos",
        "https://instagram.com/cristianosantos",
        "https://twitter.com/cristianosantos",
        "https://linkedin.com/in/cristianosantos")),
    Seo(
      "Cristiano Santos | Atacante Profissional | Perfil Oficial",
      "Perfil oficial de Cristiano Santos, atacante profissional do FC Barcelona. Estatísticas, vídeos de destaque e informações para contato profissional.",
      "Cristiano Santos, atacante, futebol profissional, FC Barcelona, jogador brasileiro",
      "https://images.unsplash.com/photo-1579952363873-27f3bade9f55?w=1200&q=80"),
    SampleMediaItems,
    Some(Music("", false, 0.5)))

  /** The player record held under `PlayerKey`, when what is there parses as one. */
  function StoredRecord(s: Store): Option<PlayerData> {
    if PlayerKey in s && s[PlayerKey].PlayerRecord? then Some(s[PlayerKey].data) else None
  }

  /** `getData`: the stored record, or `DefaultData` when the key is absent or
      its text cannot be used; it never fails. */
  function GetData(s: Store): (r: PlayerData)
    ensures PlayerKey !in s ==> r == DefaultData
    ensures PlayerKey in s && !s[PlayerKey].PlayerRecord? ==> r == DefaultData
    ensures PlayerKey in s && s[PlayerKey].PlayerRecord? ==> r == s[PlayerKey].data
  {
    StoredRecord(s).GetOr(DefaultData)
  }

  /** `saveData`: stores the record as given, without any validation, and
      reports whether the write succeeded. */
  function SaveData(s: Store, d: PlayerData, writable: bool): (w: Written)
    ensures w.ok <==> writable
    ensures w.ok ==> GetData(w.store) == d
    ensures !w.ok ==> w.store == s
    ensures Unchanged(s, w.store, PlayerKey)
  {
    Put(s, PlayerKey, PlayerRecord(d), writable)
  }

  /** `resetData`: stores `DefaultData` and reports whether the write succeeded. */
  function ResetData(s: Store, writable: bool): (w: Written)
    ensures w.ok <==> writable
    ensures w.ok ==> GetData(w.store) == DefaultData
    ensures !w.ok ==> w.store == s
    ensures Unchanged(s, w.store, PlayerKey)
  {
    Put(s, PlayerKey, PlayerRecord(DefaultData), writable)
  }

  /** `getData` looks at `PlayerKey` only: stores that agree there read alike. */
  lemma GetDataReadsOnlyPlayerKey(s1: Store, s2: Store)
    requires PlayerKey in s1 <==> PlayerKey in s2
    requires PlayerKey in s1 ==> s1[PlayerKey] == s2[PlayerKey]
    ensures GetData(s1) == GetData(s2)
  {
  }

  /** No validation on save: a skill far outside 0..100 and a volume outside
      [0, 1] read back exactly as written. */
  lemma SaveKeepsOutOfRangeValues(s: Store)
    ensures var d := DefaultData.(skills := [Skill("Finalização", 150), Skill("Passe", -3)],
                                  backgroundMusic := Some(Music("", false, 2.0)));
            GetData(SaveData(s, d, true).store).skills[0].value == 150
            && GetData(SaveData(s, d, true).store).skills[1].value == -3
            && GetData(SaveData(s, d, true).store).backgroundMusic.value.volume == 2.0
  {
  }
}
