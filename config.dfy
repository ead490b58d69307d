/** The identifier classifier, the small string helpers of the account panel
    and the fixed configuration tables (src/config.py). */
module Config {
  import opened Base

  // ------------------------------------------------------------ categories

  /** The nine category tags `get_cosmetic_type` can return. */
  datatype Category = Skins | BackBlings | Pickaxes | Emotes | Gliders | Banners | Wraps | Sprays | Others

  /** The string the source uses for each category. */
  function CategoryName(c: Category): string {
    match c
    case Skins => "Skins"
    case BackBlings => "Back Blings"
    case Pickaxes => "Pickaxes"
    case Emotes => "Emotes"
    case Gliders => "Gliders"
    case Banners => "Banners"
    case Wraps => "Wraps"
    case Sprays => "Sprays"
    case Others => "Others"
  }

  /** Reads a category name back; `None` for any other string. */
  function ParseCategory(name: string): Option<Category> {
    if name == "Skins" then Some(Skins)
    else if name == "Back Blings" then Some(BackBlings)
    else if name == "Pickaxes" then Some(Pickaxes)
    else if name == "Emotes" then Some(Emotes)
    else if name == "Gliders" then Some(Gliders)
    else if name == "Banners" then Some(Banners)
    else if name == "Wraps" then Some(Wraps)
    else if name == "Sprays" then Some(Sprays)
    else if name == "Others" then Some(Others)
    else None
  }

  /** Every category has its own name: parsing the name gives the category back. */
  lemma CategoryNameRoundTrip(c: Category)
    ensures ParseCategory(CategoryName(c)) == Some(c)
  {
  }

  // ------------------------------------------------------------ classifier

  const SkinTokens: seq<string> := ["character_", "cid_"]
  const BackBlingTokens: seq<string> := ["bid_", "backpack"]
  const PickaxeTokens: seq<string> := ["pickaxe_", "pickaxe_id_", "defaultpickaxe", "halloweenscythe"]
  const EmoteTokens: seq<string> := ["eid", "emote"]
  const GliderTokens: seq<string> := ["glider", "founderumbrella", "founderglider", "solo_umbrella"]
  const BannerPrefix: string := "banner_"

  /** Some token of the five substring rules that come before the banner rule. */
  predicate HasEarlierToken(s: string) {
    ContainsAny(s, SkinTokens) || ContainsAny(s, BackBlingTokens) || ContainsAny(s, PickaxeTokens)
    || ContainsAny(s, EmoteTokens) || ContainsAny(s, GliderTokens)
  }

  /** `get_cosmetic_type`: the first rule that matches the lower-cased id wins. */
  function GetCosmeticType(id: string): Category {
    var s := Lower(id);
    if ContainsAny(s, SkinTokens) then Skins
    else if ContainsAny(s, BackBlingTokens) then BackBlings
    else if ContainsAny(s, PickaxeTokens) then Pickaxes
    else if ContainsAny(s, EmoteTokens) then Emotes
    else if ContainsAny(s, GliderTokens) then Gliders
    else if BannerPrefix <= s then Banners
    else if Contains(s, "wrap") then Wraps
    else if Contains(s, "spray") then Sprays
    else Others
  }

  /** Classification ignores case. */
  lemma CosmeticTypeIgnoresCase(id: string)
    ensures GetCosmeticType(id) == GetCosmeticType(Lower(id))
  {
    LowerIdempotent(id);
  }

  /** The skin tokens win over every other token, wherever they stand. */
  lemma SkinTokensWin(id: string)
    requires ContainsAny(Lower(id), SkinTokens)
    ensures GetCosmeticType(id) == Skins
  {
  }

  /** Banners is returned exactly for the ids that start with `banner_` and
      hold none of the tokens of the five earlier rules. */
  lemma BannerCategoryExactly(id: string)
    ensures GetCosmeticType(id) == Banners <==> BannerPrefix <= Lower(id) && !HasEarlierToken(Lower(id))
  {
  }

  /** A banner id that holds an emote token (and no earlier token) is an emote. */
  lemma BannerWithEmoteTokenIsEmote(id: string)
    requires BannerPrefix <= Lower(id) && Contains(Lower(id), "eid")
    requires !ContainsAny(Lower(id), SkinTokens) && !ContainsAny(Lower(id), BackBlingTokens)
    requires !ContainsAny(Lower(id), PickaxeTokens)
    ensures GetCosmeticType(id) == Emotes
  {
    assert "eid" in EmoteTokens;
  }

  /** Two of the listed tokens can never decide anything: `pickaxe_id_` only
      occurs where `pickaxe_` does, `founderglider` only where `glider` does. */
  lemma RedundantTokens(s: string)
    ensures Contains(s, "pickaxe_id_") ==> Contains(s, "pickaxe_")
    ensures Contains(s, "founderglider") ==> Contains(s, "glider")
  {
    if Contains(s, "pickaxe_id_") {
      ContainsInner(s, "pickaxe_id_", "pickaxe_", 0);
    }
    if Contains(s, "founderglider") {
      ContainsInner(s, "founderglider", "glider", 7);
    }
  }

  // ------------------------------------------------------------ id pattern

  /** `ID_PATTERN.match(t)` for `athena(.*?):(.*?)_(.*?)`: the text starts with
      `athena`, and a later `:` is followed by a `_`, with no newline in between
      (`.` does not match a newline). */
  predicate MatchesIdPattern(t: string) {
    "athena" <= t
    && exists p, q | 6 <= p < q < |t| :: t[p] == ':' && t[q] == '_' && '\n' !in t[6..q]
  }

  /** When the pattern matches, `t.split(":")[1]` exists. */
  lemma IdPatternHasTwoFields(t: string)
    requires MatchesIdPattern(t)
    ensures |Split(t, ':')| >= 2
  {
    var p, q :| 6 <= p < q < |t| && t[p] == ':' && t[q] == '_' && '\n' !in t[6..q];
    assert IndexOfChar(t, ':') < |t| by {
      assert t[p] == ':';
    }
  }

  // -------------------------------------------------------- string helpers

  function Stars(n: nat): (r: string)
    ensures |r| == n && forall i :: 0 <= i < n ==> r[i] == '*'
  {
    seq(n, _ => '*')
  }

  /** `mask_account_id`: all but the first two and last two characters become `*`. */
  function MaskAccountId(id: string): (r: string)
    ensures |r| == |id|
    ensures |id| <= 4 ==> r == id
    ensures |id| > 4 ==> r[..2] == id[..2] && r[|r| - 2..] == id[|id| - 2..]
    ensures |id| > 4 ==> forall i :: 2 <= i < |id| - 2 ==> r[i] == '*'
  {
    if |id| > 4 then id[..2] + Stars(|id| - 4) + id[|id| - 2..] else id
  }

  /** The local part of an address, masked the way `mask_email` does it. */
  function MaskLocalPart(local: string): (m: string)
    ensures |m| == |local|
    ensures |local| <= 1 ==> m == local
    ensures |local| >= 2 ==> m[0] == local[0] && forall i :: 1 <= i < |local| - 1 ==> m[i] == '*'
    ensures |local| > 2 ==> m[|m| - 1] == local[|local| - 1]
    ensures |local| == 2 ==> m[1] == '*'
  {
    if |local| > 2 then [local[0]] + Stars(|local| - 2) + [local[|local| - 1]]
    else if |local| == 2 then [local[0], '*']
    else local
  }

  /** `mask_email`; `None` stands for the ValueError that unpacking
      `email.split("@")` into two names raises when there are several `@`. */
  function MaskEmail(email: string): Option<string> {
    var k := IndexOfChar(email, '@');
    if k == |email| then Some(email)
    else if '@' in email[k + 1..] then None
    else Some(MaskLocalPart(email[..k]) + email[k..])
  }

  /** Without an `@` the address is returned as it is. */
  lemma MaskEmailNoAt(email: string)
    requires '@' !in email
    ensures MaskEmail(email) == Some(email)
  {
  }

  /** Masking fails exactly when `email.split("@")` does not give two fields,
      which is when the address holds several `@`. */
  lemma MaskEmailFails(email: string)
    ensures MaskEmail(email).None? <==> |Split(email, '@')| > 2
    ensures MaskEmail(email).None? <==> multiset(email)['@'] >= 2
  {
    SplitCount(email, '@');
    var k := IndexOfChar(email, '@');
    if k < |email| {
      var rest := email[k + 1..];
      IndexOfCharFirst(email, '@');
      assert multiset(email[..k])['@'] == 0;
      MultisetAround(email, k, '@');
      assert '@' in rest <==> multiset(rest)['@'] > 0;
    } else {
      assert multiset(email)['@'] == 0;
    }
  }

  /** With exactly one `@`, the result is the masked first field of
      `email.split("@")`, the `@`, and the second field unchanged. */
  lemma MaskEmailOneAt(email: string)
    requires multiset(email)['@'] == 1
    ensures |Split(email, '@')| == 2
    ensures MaskEmail(email) == Some(MaskLocalPart(Split(email, '@')[0]) + "@" + Split(email, '@')[1])
  {
    SplitOnce(email, '@');
    var k := IndexOfChar(email, '@');
    assert '@' !in email[k + 1..] by {
      MaskEmailFails(email);
    }
    var m := MaskLocalPart(email[..k]);
    assert MaskEmail(email) == Some(m + email[k..]);
    assert email[k..] == "@" + email[k + 1..];
    assert m + email[k..] == m + "@" + email[k + 1..];
  }

  /** `country_to_flag`; `None` stands for the ValueError `chr` raises past U+10FFFF. */
  const FlagOffset: int := 127397

  function CountryToFlag(code: string): (r: Option<string>)
    ensures |code| != 2 ==> r == Some(code)
    ensures |code| == 2 ==>
      (r.Some? <==> UpperChar(code[0]) as int + FlagOffset <= 0x10FFFF
                    && UpperChar(code[1]) as int + FlagOffset <= 0x10FFFF)
    ensures |code| == 2 && r.Some? ==>
      |r.value| == 2 && forall i :: 0 <= i < 2 ==> r.value[i] as int == UpperChar(code[i]) as int + FlagOffset
  {
    if |code| != 2 then Some(code)
    else
      var a := UpperChar(code[0]) as int + FlagOffset;
      var b := UpperChar(code[1]) as int + FlagOffset;
      if a <= 0x10FFFF && b <= 0x10FFFF then Some([a as char, b as char]) else None
  }

  /** Two ASCII letters become the two regional indicator symbols of a flag. */
  lemma FlagOfLetters(code: string)
    requires |code| == 2
    requires forall i :: 0 <= i < 2 ==> 'A' <= UpperChar(code[i]) <= 'Z'
    ensures CountryToFlag(code).Some?
    ensures forall i :: 0 <= i < 2 ==> 0x1F1E6 <= CountryToFlag(code).value[i] as int <= 0x1F1FF
  {
  }

  // ---------------------------------------------------------------- tables

  /** `RARITY_BACKGROUNDS_V1`, paths relative to the source directory. */
  const RarityBackgrounds: map<string, string> := map[
    "Common" := "squares/commun.png",
    "Uncommon" := "squares/uncommun.png",
    "Rare" := "squares/rare.png",
    "Epic" := "squares/epico.png",
    "Legendary" := "squares/legendary.png",
    "Mythic" := "squares/mitico.png",
    "Icon Series" := "squares/idolo.png",
    "DARK SERIES" := "squares/dark.png",
    "Star Wars Series" := "squares/starwars.png",
    "MARVEL SERIES" := "squares/marvel.png",
    "DC SERIES" := "squares/dc.png",
    "Gaming Legends Series" := "squares/serie.png",
    "Shadow Series" := "squares/shadow.png",
    "Slurp Series" := "squares/slurp.png",
    "Lava Series" := "squares/lava.png",
    "Frozen Series" := "squares/hielo.png"
  ]

  /** `RARITY_PRIORITY`: lower rank sorts first. */
  const RarityPriority: map<string, int> := map[
    "Mythic" := 1,
    "Legendary" := 2,
    "DARK SERIES" := 3,
    "Slurp Series" := 4,
    "Star Wars Series" := 5,
    "MARVEL SERIES" := 6,
    "Lava Series" := 7,
    "Frozen Series" := 8,
    "Gaming Legends Series" := 9,
    "Shadow Series" := 10,
    "Icon Series" := 11,
    "DC SERIES" := 12,
    "Epic" := 13,
    "Rare" := 14,
    "Uncommon" := 15,
    "Common" := 16
  ]

  /** `SUB_ORDER`: fixed relative order of a few original-style skins. */
  const SubOrder: map<string, int> := map[
    "cid_017_athena_commando_m" := 1,
    "cid_028_athena_commando_f" := 2,
    "cid_029_athena_commando_f_halloween" := 3,
    "cid_030_athena_commando_m_halloween" := 4,
    "cid_035_athena_commando_m_medieval" := 5,
    "cid_313_athena_commando_m_kpopfashion" := 6,
    "cid_757_athena_commando_f_wildcat" := 7,
    "cid_039_athena_commando_f_disco" := 8,
    "cid_033_athena_commando_f_medieval" := 9,
    "cid_032_athena_commando_m_medieval" := 10,
    "cid_084_athena_commando_m_assassin" := 11,
    "cid_095_athena_commando_m_founder" := 12,
    "cid_096_athena_commando_f_founder" := 13,
    "cid_113_athena_commando_m_blueace" := 14,
    "cid_116_athena_commando_m_carbideblack" := 15,
    "cid_175_athena_commando_m_celestial" := 16,
    "cid_183_athena_commando_m_modernmilitaryred" := 17,
    "cid_342_athena_commando_m_streetracermetallic" := 18,
    "cid_371_athena_commando_m_speedymidnight" := 19,
    "cid_434_athena_commando_f_stealthhonor" := 20,
    "cid_441_athena_commando_f_cyberscavengerblue" := 21,
    "cid_479_athena_commando_f_davinci" := 22,
    "cid_515_athena_commando_m_barbequelarry" := 23,
    "cid_516_athena_commando_m_blackwidowrogue" := 24,
    "cid_703_athena_commando_m_cyclone" := 25,
    "cid_npc_athena_commando_m_masterkey" := 26
  ]

  /** Every rarity with a rank has a background, and the other way round. */
  lemma RarityTablesShareKeys()
    ensures RarityPriority.Keys == RarityBackgrounds.Keys
  {
  }

  /** The rarities of `RARITY_PRIORITY`, listed by their rank. */
  const RarityByRank: seq<string> := ["Mythic", "Legendary", "DARK SERIES", "Slurp Series",
    "Star Wars Series", "MARVEL SERIES", "Lava Series", "Frozen Series", "Gaming Legends Series",
    "Shadow Series", "Icon Series", "DC SERIES", "Epic", "Rare", "Uncommon", "Common"]

  /** Each rank names its rarity: the rank of a key is its position in the list above. */
  lemma RarityByRankListsKeys()
    ensures |RarityByRank| == 16
    ensures forall r :: r in RarityPriority ==> 1 <= RarityPriority[r] <= 16 && RarityByRank[RarityPriority[r] - 1] == r
  {
  }

  /** Every position of the list above is a key ranked by that position. */
  lemma RarityByRankCovers()
    ensures |RarityByRank| == 16
    ensures forall i :: 0 <= i < 16 ==> RarityByRank[i] in RarityPriority && RarityPriority[RarityByRank[i]] == i + 1
  {
  }

  /** The sixteen rarity ranks are 1..16, each used once. */
  lemma RarityPriorityRanks()
    ensures forall r :: r in RarityPriority ==> 1 <= RarityPriority[r] <= 16
    ensures forall r, s :: r in RarityPriority && s in RarityPriority && RarityPriority[r] == RarityPriority[s] ==> r == s
    ensures forall n :: 1 <= n <= 16 ==> n in RarityPriority.Values
  {
    RarityByRankListsKeys();
    RarityByRankCovers();
    forall n | 1 <= n <= 16 ensures n in RarityPriority.Values {
      var r := RarityByRank[n - 1];
      assert r in RarityPriority && RarityPriority[r] == n;
    }
  }

  /** The skins of `SUB_ORDER`, listed by their sub-rank. */
  const SubOrderByRank: seq<string> := [
    "cid_017_athena_commando_m", "cid_028_athena_commando_f", "cid_029_athena_commando_f_halloween",
    "cid_030_athena_commando_m_halloween", "cid_035_athena_commando_m_medieval",
    "cid_313_athena_commando_m_kpopfashion", "cid_757_athena_commando_f_wildcat",
    "cid_039_athena_commando_f_disco", "cid_033_athena_commando_f_medieval",
    "cid_032_athena_commando_m_medieval", "cid_084_athena_commando_m_assassin",
    "cid_095_athena_commando_m_founder", "cid_096_athena_commando_f_founder",
    "cid_113_athena_commando_m_blueace", "cid_116_athena_commando_m_carbideblack",
    "cid_175_athena_commando_m_celestial", "cid_183_athena_commando_m_modernmilitaryred",
    "cid_342_athena_commando_m_streetracermetallic", "cid_371_athena_commando_m_speedymidnight",
    "cid_434_athena_commando_f_stealthhonor", "cid_441_athena_commando_f_cyberscavengerblue",
    "cid_479_athena_commando_f_davinci", "cid_515_athena_commando_m_barbequelarry",
    "cid_516_athena_commando_m_blackwidowrogue", "cid_703_athena_commando_m_cyclone",
    "cid_npc_athena_commando_m_masterkey"]

  /** Each sub-rank names its skin: the rank of a key is its position in the list above. */
  lemma SubOrderListsKeys()
    ensures |SubOrderByRank| == 26
    ensures forall k :: k in SubOrder ==> 1 <= SubOrder[k] <= 26 && SubOrderByRank[SubOrder[k] - 1] == k
  {
  }

  /** The twenty-six sub-ranks are 1..26, each used once. */
  lemma SubOrderRanks()
    ensures forall k :: k in SubOrder ==> 1 <= SubOrder[k] <= 26
    ensures forall k, l :: k in SubOrder && l in SubOrder && SubOrder[k] == SubOrder[l] ==> k == l
  {
    SubOrderListsKeys();
  }

  /** `mythic_ids`: ids whose rarity is forced to Mythic (compared lower-cased). */
  const MythicIds: seq<string> := [
    "cid_017_athena_commando_m", "cid_028_athena_commando_f", "eid_tidy", "banner_influencerbanner21",
    "banner_brseason01", "banner_ot1banner", "banner_ot2banner", "banner_ot3banner", "banner_ot4banner",
    "banner_ot5banner", "banner_influencerbanner54", "banner_influencerbanner38", "banner_ot6banner",
    "banner_ot7banner", "banner_ot8banner", "banner_ot9banner", "banner_ot10banner", "banner_ot11banner",
    "cid_032_athena_commando_m_medieval", "cid_033_athena_commando_f_medieval",
    "cid_035_athena_commando_m_medieval", "eid_uproar_496sc", "eid_textile_3o8qg", "eid_sunrise_rpz6m",
    "eid_sleek_s20cu", "eid_sandwichbop", "eid_sahara", "eid_rigormortis", "eid_richfam",
    "eid_provisitorprotest", "eid_playereleven", "eid_lasagnadance", "eid_jingle", "eid_hoppin",
    "eid_hnygoodriddance", "eid_hawtchamp", "eid_gleam", "eid_galileo3_t4dko", "eid_eerie_8wgyk",
    "eid_dumbbell_lift", "eid_downward_8gzua", "eid_cyclone", "eid_cycloneheadbang", "eid_astray",
    "eid_antivisitorprotest", "pickaxe_spookyneonred", "pickaxe_id_tbd_crystalshard",
    "pickaxe_id_461_skullbritecube", "pickaxe_id_398_wildcatfemale", "pickaxe_id_338_bandageninjablue1h",
    "pickaxe_id_178_speedymidnight", "pickaxe_id_099_modernmilitaryred", "pickaxe_id_077_carbidewhite",
    "pickaxe_id_044_tacticalurbanhammer", "pickaxe_id_039_tacticalblack", "pickaxe_accumulateretro",
    "character_vampirehunter_galaxy", "character_sahara", "character_reconexpert_fncs",
    "character_masterkeyorder", "cid_a_329_athena_commando_f_uproar_i5n5z",
    "cid_a_271_athena_commando_m_fncs_purple", "cid_a_269_athena_commando_f_hastestreet_b563i",
    "cid_a_256_athena_commando_f_uproarbraids_8iozw", "cid_a_215_athena_commando_f_sunrisecastle_48tiz",
    "cid_a_216_athena_commando_m_sunrisepalace_bbqy0", "cid_a_208_athena_commando_m_textilepup_c85od",
    "cid_a_207_athena_commando_m_textileknight_9te8l", "cid_a_206_athena_commando_f_textilesparkle_v8ysa",
    "cid_a_205_athena_commando_f_textileram_gmrj0", "cid_a_196_athena_commando_f_fncsgreen",
    "cid_a_189_athena_commando_m_lavish_huu31", "cid_a_139_athena_commando_m_foray_sd8aa",
    "cid_a_138_athena_commando_f_foray_yqpb0", "cid_a_100_athena_commando_m_downpour_kc39p",
    "cid_914_athena_commando_f_york_e", "cid_913_athena_commando_f_york_d",
    "cid_912_athena_commando_f_york_c", "cid_911_athena_commando_f_york_b", "cid_910_athena_commando_f_york",
    "cid_909_athena_commando_m_york_e", "cid_908_athena_commando_m_york_d",
    "cid_907_athena_commando_m_york_c", "cid_906_athena_commando_m_york_b", "cid_905_athena_commando_m_york",
    "cid_753_athena_commando_f_hostile", "cid_547_athena_commando_f_meteorwoman",
    "cid_424_athena_commando_m_vigilante", "cid_423_athena_commando_f_painter",
    "cid_376_athena_commando_m_darkshaman", "cid_252_athena_commando_m_muertos", "bid_102_buckles",
    "bid_103_clawed", "bid_104_yellowzip", "bid_114_modernmilitaryred", "bid_136_muertosmale",
    "bid_234_speedymidnight", "bid_240_darkshamanmale", "bid_288_cyberscavengerfemaleblue",
    "bid_346_blackwidowrogue", "bid_452_bandageninjablue", "bid_604_skullbritecube",
    "glider_id_056_carbidewhite", "glider_id_075_modernmilitaryred", "glider_id_092_streetops",
    "glider_id_122_valentines", "glider_id_131_speedymidnight", "glider_id_137_streetopsstealth",
    "glider_plaguewaste", "cid_a_256_athena_commando_f_uproarbraids_8iozw",
    "cid_030_athena_commando_m_halloween", "cid_029_athena_commando_f_halloween", "banner_influencerbanner1",
    "banner_influencerbanner2", "banner_influencerbanner3", "banner_influencerbanner4",
    "banner_influencerbanner5", "banner_influencerbanner6", "banner_influencerbanner7",
    "banner_influencerbanner8", "banner_influencerbanner9", "banner_influencerbanner10",
    "banner_influencerbanner11", "banner_influencerbanner12", "banner_influencerbanner13",
    "banner_influencerbanner14", "banner_influencerbanner15", "banner_influencerbanner16",
    "banner_influencerbanner17", "banner_influencerbanner18", "banner_influencerbanner19",
    "banner_influencerbanner20", "banner_influencerbanner21", "banner_influencerbanner22",
    "banner_influencerbanner23", "banner_influencerbanner24", "banner_influencerbanner25",
    "banner_influencerbanner26", "banner_influencerbanner27", "banner_influencerbanner28",
    "banner_influencerbanner29", "banner_influencerbanner30", "banner_influencerbanner31",
    "banner_influencerbanner32", "banner_influencerbanner33", "banner_influencerbanner34",
    "banner_influencerbanner35", "banner_influencerbanner36", "banner_influencerbanner37",
    "banner_influencerbanner39", "banner_influencerbanner40", "banner_influencerbanner41",
    "banner_influencerbanner42", "banner_influencerbanner43", "banner_influencerbanner44",
    "banner_influencerbanner45", "banner_influencerbanner46", "banner_influencerbanner47",
    "banner_influencerbanner48", "banner_influencerbanner49", "banner_influencerbanner50",
    "banner_influencerbanner51", "banner_influencerbanner52", "banner_influencerbanner53",
    "banner_foundertier1banner1", "banner_foundertier1banner2", "banner_foundertier1banner3",
    "banner_foundertier1banner4", "banner_foundertier2banner1", "banner_foundertier2banner2",
    "banner_foundertier2banner3", "banner_foundertier2banner4", "banner_foundertier2banner5",
    "banner_foundertier2banner6", "banner_foundertier3banner1", "banner_foundertier3banner2",
    "banner_foundertier3banner3", "banner_foundertier3banner4", "banner_foundertier3banner5",
    "banner_foundertier4banner1", "banner_foundertier4banner2", "banner_foundertier4banner3",
    "banner_foundertier4banner4", "banner_foundertier4banner5", "banner_foundertier5banner1",
    "banner_foundertier5banner2", "banner_foundertier5banner3", "banner_foundertier5banner4",
    "banner_foundertier5banner5", "cid_052_athena_commando_f_psblue", "cid_095_athena_commando_m_founder",
    "cid_096_athena_commando_f_founder", "cid_138_athena_commando_m_psburnou",
    "cid_260_athena_commando_f_streetops", "cid_315_athena_commando_m_teriyakifish",
    "cid_399_athena_commando_f_ashtonboardwalk", "cid_619_athena_commando_f_techllama",
    "cid_a_024_athena_commando_f_skirmish_qw2bq", "cid_a_101_athena_commando_m_tacticalwoodlandblue",
    "cid_a_215_athena_commando_f_sunrisecastle_48tiz", "cid_a_216_athena_commando_m_sunrisepalace_bbqy0",
    "pickaxe_id_stw004_tier_5", "pickaxe_id_stw005_tier_6", "cid_925_athena_commando_f_tapdance",
    "bid_072_vikingmale", "cid_138_athena_commando_m_psburnout", "pickaxe_id_stw001_tier_1",
    "pickaxe_id_stw002_tier_3", "pickaxe_id_stw003_tier_4", "pickaxe_id_stw007_basic",
    "pickaxe_id_153_roseleader", "pickaxe_id_461_skullbritecube", "glider_id_211_wildcatblue",
    "glider_id_206_donut", "cid_113_athena_commando_m_blueace", "cid_114_athena_commando_f_tacticalwoodland",
    "cid_175_athena_commando_m_celestial", "cid_089_athena_commando_m_retrogrey",
    "cid_174_athena_commando_f_carbidewhite", "cid_183_athena_commando_m_modernmilitaryred",
    "cid_207_athena_commando_m_footballdudea", "eid_worm", "cid_208_athena_commando_m_footballduded",
    "cid_209_athena_commando_m_footballdudec", "cid_210_athena_commando_f_footballgirla",
    "cid_211_athena_commando_f_footballgirlb", "cid_212_athena_commando_f_footballgirlc",
    "cid_238_athena_commando_f_footballgirld", "cid_239_athena_commando_m_footballduded",
    "cid_240_athena_commando_f_plague", "cid_313_athena_commando_m_kpopfashion",
    "cid_082_athena_commando_m_scavenger", "cid_090_athena_commando_m_tactical",
    "cid_657_athena_commando_f_techopsblue", "cid_371_athena_commando_m_speedymidnight",
    "cid_085_athena_commando_m_twitch", "cid_342_athena_commando_m_streetracermetallic",
    "cid_434_athena_commando_f_stealthhonor", "cid_441_athena_commando_f_cyberscavengerblue",
    "cid_479_athena_commando_f_davinci", "cid_478_athena_commando_f_worldcup",
    "cid_515_athena_commando_m_barbequelarry", "cid_516_athena_commando_m_blackwidowrogue",
    "cid_657_athena_commando_f_techOpsBlue", "cid_619_athena_commando_f_techllama",
    "cid_660_athena_commando_f_bandageninjablue", "cid_703_athena_commando_m_cyclone",
    "cid_084_athena_commando_m_assassin", "cid_083_athena_commando_f_tactical",
    "cid_761_athena_commando_m_cyclonespace", "cid_783_athena_commando_m_aquajacket",
    "cid_964_athena_commando_m_historian_869bc", "cid_084_athena_commando_m_assassin",
    "cid_039_athena_commando_f_disco", "eid_ashtonboardwalk", "eid_ashtonsaltlake", "eid_bendy",
    "eid_bollywood", "eid_chicken", "cid_757_athena_commando_f_wildcat", "cid_080_athena_commando_m_space",
    "eid_crackshotclock", "eid_dab", "eid_fireworksspin", "eid_fresh", "eid_griddles", "eid_hiphop01",
    "eid_iceking", "eid_kpopdance03", "eid_macaroon_45lhe", "eid_ridethepony_athena", "eid_robot",
    "eid_rockguitar", "eid_solartheory", "eid_taketheL", "eid_tapshuffle",
    "cid_386_athena_commando_m_streetopsstealth", "eid_torchsnuffer", "eid_trophycelebrationfncs",
    "eid_trophycelebration", "eid_twistdaytona", "eid_zest_q1k5v", "founderumbrella", "founderglider",
    "glider_id_001", "glider_id_002_medieval", "glider_id_003_district", "glider_id_004_disco",
    "glider_id_014_dragon", "glider_id_090_celestial", "glider_id_176_blackmondaycape_4p79k",
    "glider_id_206_donut", "umbrella_snowflake", "glider_warthog", "glider_voyager", "bid_001_bluesquire",
    "bid_002_royaleknight", "bid_004_blackknight", "bid_005_raptor", "bid_025_tactical",
    "eid_electroshuffle", "cid_850_athena_commando_f_skullbritecube", "bid_024_space", "bid_027_scavenger",
    "bid_029_retrogrey", "bid_030_tacticalrogue", "bid_055_psburnout", "bid_072_vikingmale",
    "bid_103_clawed", "bid_102_buckles", "bid_138_celestial", "bid_468_cyclone", "bid_520_cycloneuniverse",
    "halloweenscythe", "eid_floss", "pickaxe_id_013_teslacoil", "pickaxe_id_015_holidaycandycane",
    "pickaxe_id_021_megalodon", "pickaxe_id_019_heart", "cid_116_athena_commando_m_carbideblack",
    "pickaxe_id_029_assassin", "pickaxe_id_077_carbidewhite", "pickaxe_id_088_psburnout",
    "pickaxe_id_116_celestial", "pickaxe_id_011_medieval", "eid_takethel", "pickaxe_id_294_candycane",
    "pickaxe_id_359_cyclonemale", "pickaxe_id_376_fncs", "pickaxe_id_508_historianmale_6bqsw",
    "pickaxe_id_804_fncss20male", "pickaxe_id_stw007_basic", "cid_259_athena_commando_m_streetops",
    "pickaxe_lockjaw"
  ]

  /** `banner_name_map`: the process-wide map from a banner's cosmetic id
      (`banner_` + lower-cased banner id) to its display name. */
  class BannerNameMap {
    var entries: map<string, string>

    constructor ()
      ensures entries == map[]
    {
      entries := map[];
    }
  }
}
