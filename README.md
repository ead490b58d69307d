# Fortnite locker checker — a Dafny model of its core

The system is a Discord bot. A player logs in with their Epic account. The bot
reads the player's Fortnite profile and sorts the cosmetics it finds into
category buckets: Skins, Back Blings, Pickaxes, Emotes, Gliders, Banners,
Wraps, Sprays and Others. When a panel button is pressed, the bot draws a
"locker" image for that category. To draw it, the bot:

- resolves each cosmetic's name and rarity;
- orders the cosmetics by category, rarity rank and a hand-written sub-order;
- fetches the icons into a file cache, falling back to a placeholder image;
- places the tiles on a grid under a footer.

Each user's session is kept in a per-user cache, together with the path of
every image generated so far. Those files are deleted when the user exits.

The model has five modules, one per source file plus a shared base:

- `Base` holds `Option`, byte strings and the Python string operations the
  code relies on:
  - `lower` and `upper`, for ASCII only;
  - `strip`, `in` and `split`;
  - `str(int)`.
- `Config` (src/config.py) holds:
  - the identifier classifier `get_cosmetic_type`;
  - the account-id, e-mail and country-flag helpers;
  - the rarity, background, sub-order and mythic tables;
  - the process-wide banner name map.
- `FortniteApi` (src/fortnite_api.py) holds:
  - the metadata resolver and the stable three-key sort;
  - the icon cache fill and the banner cache fill, as methods over a `Disk`
    object whose `files` map is the cache directory;
  - the V-Bucks fold and the banner-id filter over profile items.

  HTTP answers are inputs. Each is a map from what was requested to the body
  of a 200 answer, and a key is absent when the server answered anything else.
- `ImageUtils` (src/image_utils.py) holds the integer layout of the
  compositor:
  - the column-count loop, tile size and canvas size, and the row-major tile
    positions;
  - the two font-shrinking loops, with text width as an input function;
  - the icon, placeholder and background choice for each tile;
  - `create_checker_image` with its filters, output file and logo copy.
- `Bot` (bot.py) holds:
  - the inventory bucketing loop of `fetch_user_data`;
  - the id lists the category buttons show;
  - the `USER_CACHE` session store as a `UserCache` class, with login,
    pre-generation, category display, exit, and the interaction dispatcher.

Each loop of the source is a method. It is proved against a recursive
specification function, such as `Inventory`, `DownloadAll`, `PrepareBanners`,
`TotalVbucks`, `Concat`, `NameFontSize` or `FooterFontSize`. Lemmas then state
what the source promises about that function.

## Model

| member | source | states |
|---|---|---|
| Config.CategoryNameRoundTrip | src/config.py:166-188 | the nine category tags are distinct strings; reading a tag back gives its category |
| Config.CosmeticTypeIgnoresCase | src/config.py:167 | the category of an id equals the category of its lower-cased form |
| Config.SkinTokensWin | src/config.py:168-169 | an id containing `character_` or `cid_` is a Skin, whatever else it contains |
| Config.BannerCategoryExactly | src/config.py:168-182 | Banners exactly when the lower-cased id starts with `banner_` and holds none of the tokens of the four earlier rules |
| Config.BannerWithEmoteTokenIsEmote | src/config.py:177-182 | a `banner_` id containing `eid` (and no earlier token) is classified as an Emote |
| Config.RedundantTokens | src/config.py:172-179 | the `pickaxe_id_` and `founderglider` tests never decide anything their shorter partners did not |
| Config.IdPatternHasTwoFields | src/config.py:32 | a template id the id pattern accepts has a field after its first colon |
| Config.MaskAccountId | src/config.py:161-164 | same length; up to 4 characters unchanged; otherwise the first two and last two kept and every other character `*` |
| Config.MaskLocalPart | src/config.py:150-156 | same length; first character kept; last kept when longer than 2; the middle (or the second of two) is `*`; length ≤ 1 unchanged |
| Config.MaskEmailNoAt | src/config.py:148-158 | an address without `@` is returned unchanged |
| Config.MaskEmailFails | src/config.py:148-150 | the unpacking of the split fails exactly when the address holds two or more `@` |
| Config.MaskEmailOneAt | src/config.py:148-157 | with one `@` the result is the masked local part, `@`, and the domain unchanged |
| Config.CountryToFlag | src/config.py:143-146 | input unchanged unless it has length 2; otherwise two code points, each the upper-cased character plus 127397, failing only past U+10FFFF |
| Config.FlagOfLetters | src/config.py:143-146 | two ASCII letters always give two regional-indicator symbols |
| Config.RarityTablesShareKeys | src/config.py:13-51 | the rarity priority table and the background table have the same sixteen keys |
| Config.RarityByRankListsKeys | src/config.py:34-51 | every priority is between 1 and 16, and the rarity with priority n is the n-th of the ranked list |
| Config.RarityByRankCovers | src/config.py:34-51 | each of the sixteen ranked rarities is in the table with its rank as priority |
| Config.RarityPriorityRanks | src/config.py:34-51 | the priorities are distinct and are exactly 1 to 16 |
| Config.SubOrderListsKeys | src/config.py:53-80 | every sub-order rank is between 1 and 26, and the id with rank n is the n-th of the ranked list |
| Config.SubOrderRanks | src/config.py:53-80 | the sub-order ranks are distinct and lie in 1 to 26 |
| Config.BannerNameMap.constructor | src/config.py:138 | the banner name map starts empty |
| FortniteApi.GetCosmeticInfo | src/fortnite_api.py:244-271 | the returned id is the input as given; a mythic id that is a banner or was found is Mythic; a banner is Mythic or Uncommon |
| FortniteApi.BannerInfoNeedsNoLookup | src/fortnite_api.py:247-255 | a banner's info does not depend on the catalog; its name is the name-map entry for the lower-cased id or `Banner <id>`; Mythic exactly when mythic |
| FortniteApi.UnknownNameMeansFailedLookup | src/fortnite_api.py:257-271 | a failed lookup gives Common and the unsubstituted name `Unknown`; a found id other than `Unknown` never gets the name `Unknown` |
| FortniteApi.FoundInfo | src/fortnite_api.py:262-271 | on a found id: rarity from the catalog (or Common) unless mythic; a missing name or the literal name `Unknown` becomes the id; any other name is kept |
| FortniteApi.KeyLeTotal | src/fortnite_api.py:317-319 | the tuple order on sort keys is total and antisymmetric |
| FortniteApi.KeyLeTrans | src/fortnite_api.py:317-319 | the tuple order on sort keys is transitive |
| FortniteApi.IndexOf | src/fortnite_api.py:314 | the index is the first occurrence, or the length when the category is not listed |
| FortniteApi.KeyOfBounds | src/fortnite_api.py:310-317 | the category index is at most the list length; the rarity rank is 1..16 or 999; the sub-rank is 1..26 or 9999 |
| FortniteApi.InsertPermutes | src/fortnite_api.py:319 | inserting adds exactly one occurrence of the element |
| FortniteApi.ConsSorted | src/fortnite_api.py:319 | an element no greater than every element of a sorted list can go in front |
| FortniteApi.InsertSorted | src/fortnite_api.py:319 | inserting into a sorted list keeps it sorted |
| FortniteApi.InsertStable | src/fortnite_api.py:319 | inserting keeps, for every key, the order of the elements with that key |
| FortniteApi.SortPermutes | src/fortnite_api.py:319 | the sort returns a permutation of its input |
| FortniteApi.SortSorted | src/fortnite_api.py:319 | the sort returns its input ordered by key |
| FortniteApi.SortStable | src/fortnite_api.py:319 | elements with equal keys keep their input order |
| FortniteApi.SortIdsByRarityCorrect | src/fortnite_api.py:307-320 | the sorted ids are a permutation of the input, nondecreasing in (category index, rarity rank, sub-rank), and stable |
| FortniteApi.CachePathInjective | src/fortnite_api.py:285 | distinct ids have distinct cache files |
| FortniteApi.FirstSuccessIsFirst | src/fortnite_api.py:289-299 | no answer exactly when no URL answered 200; otherwise the body of the first URL that did |
| FortniteApi.Downloaded | src/fortnite_api.py:289-302 | the icon body, else the small-icon body, else the placeholder |
| FortniteApi.DownloadAllElsewhere | src/fortnite_api.py:274-304 | files that are no non-banner id's cache file are untouched |
| FortniteApi.DownloadAllSettled | src/fortnite_api.py:282-287 | a cached file that is non-empty or already downloaded stays as it is |
| FortniteApi.DownloadAllAt | src/fortnite_api.py:280-302 | afterwards each non-banner id's file is its old non-empty contents or the first-success-else-placeholder body |
| FortniteApi.DownloadAllIdempotent | src/fortnite_api.py:274-304 | running the cache fill a second time changes nothing |
| FortniteApi.Download | src/fortnite_api.py:280-302 | one id: banner ids and non-empty cache hits untouched, otherwise the file becomes the downloaded body |
| FortniteApi.DownloadCosmeticImages | src/fortnite_api.py:274-304 | the cache afterwards is the cache fill of all ids, in order |
| FortniteApi.GetVbucksInfo | src/fortnite_api.py:75-97 | a failed query gives the error; otherwise the sum of the quantities of the four currency templates |
| FortniteApi.TotalVbucksAppend | src/fortnite_api.py:91-95 | the total of two runs of items is the sum of their totals |
| FortniteApi.TotalVbucksCurrencyOnly | src/fortnite_api.py:91-95 | items of other templates add nothing; with non-negative quantities the total is non-negative |
| FortniteApi.PrefixedField | src/fortnite_api.py:192-195 | after a one-colon prefix, the split has two fields ending in `b` exactly when the rest is `b` without a colon |
| FortniteApi.BannerIdOfExactly | src/fortnite_api.py:190-196 | an item yields banner id `b` exactly when its lower-cased template is `homebasebanner:b` or `homebasebannericon:b` and `b` has no colon |
| FortniteApi.GetBannersFromCommonCore | src/fortnite_api.py:177-197 | a failed query gives no ids; otherwise the banner ids of the items, in profile order |
| FortniteApi.BannerCidPathInjective | src/fortnite_api.py:217-218 | two raw banner ids share a cache file only when they agree up to case |
| FortniteApi.DownloadAndPrepareBanners | src/fortnite_api.py:200-241 | the cache, the name map and the returned ids are those of the banner loop run over the raw ids in order |
| FortniteApi.BannerStepKeepsVerdicts | src/fortnite_api.py:215-239 | one turn of the loop never changes whether another banner is kept |
| FortniteApi.KeptBannerIdsSame | src/fortnite_api.py:215-239 | the kept ids depend only on which banners are kept |
| FortniteApi.PrepareBannersIds | src/fortnite_api.py:215-241 | the returned ids are `banner_` + lower(raw) for each kept raw id, in profile order |
| FortniteApi.PrepareBannersRecordsNames | src/fortnite_api.py:219-224 | every raw id found in the catalog gets a name-map entry |
| FortniteApi.PrepareBannersKeepsName | src/fortnite_api.py:222-224 | an entry the loop rewrites only with the same name keeps that name |
| FortniteApi.PrepareBannersOnlyCatalogNames | src/fortnite_api.py:219-221 | a raw id absent from the catalog gets no name-map entry |
| FortniteApi.KeptBannerIdsFrom | src/fortnite_api.py:215-239 | every returned id comes from a raw id found in the catalog |
| FortniteApi.ReturnedBannersAreNamed | src/fortnite_api.py:215-241 | every returned banner id has a name-map entry |
| ImageUtils.CeilDiv | src/image_utils.py:97 | the least r with c·r ≥ n |
| ImageUtils.ColumnsBelowItems | src/image_utils.py:100-102 | the column loop only runs while there are more items than columns |
| ImageUtils.ChooseGrid | src/image_utils.py:95-108 | the column count is the least c ≥ 6 with ceil(n/c) ≤ c; rows = ceil(n/cols); size = min(1848 // cols, 2048 // rows) |
| ImageUtils.SixColumnsUpTo36 | src/image_utils.py:95-104 | up to 36 items use exactly six columns |
| ImageUtils.CanvasBounds | src/image_utils.py:106-113 | the canvas is at most 1848 wide and `(rows + 1)·size` high, the extra row being the footer |
| ImageUtils.PlaceTiles | src/image_utils.py:117-122 | tile k is at `(k % cols · size, k // cols · size)` |
| ImageUtils.TilesRowMajor | src/image_utils.py:117-120 | a later tile is on a later row, or on the same row further right: positions are distinct and row-major |
| ImageUtils.TileRowInGrid | src/image_utils.py:117-120 | every tile's row is one of the grid's rows |
| ImageUtils.TilesAboveFooter | src/image_utils.py:117-122 | every tile lies inside the canvas and above the footer strip |
| ImageUtils.NameFontSizeSpec | src/image_utils.py:53-65 | the name size ends in [10, start]; above 10 the name fits in width − 20, and no larger size down from the start fits |
| ImageUtils.FitNameFont | src/image_utils.py:51-70 | the loop's size and font are the specified ones; without the font file the start size and the default font |
| ImageUtils.StartOfSeriesRankLow | src/image_utils.py:38-51 | the series rarities of ranks 3 to 7 start at 80 |
| ImageUtils.StartOfSeriesRankHigh | src/image_utils.py:38-51 | the series rarities of ranks 8 to 12 start at 80 |
| ImageUtils.StartOfOtherRank | src/image_utils.py:38-51 | the other six rarities start at 40 |
| ImageUtils.SeriesRaritiesStartLarge | src/image_utils.py:38-51 | a table rarity starts at 80 exactly when its rank is 3 to 12, the ten series |
| ImageUtils.FooterFontSizeSpec | src/image_utils.py:143-165 | the footer size never grows, stops at the first size where all three lines fit or at 8 |
| ImageUtils.FitFooterFont | src/image_utils.py:143-165 | the loop's size is the specified one; without the font file it stops after one decrement |
| ImageUtils.IconLayer | src/image_utils.py:186-199 | a file is used only when it decodes and is not 1×1; without a substitute that file is the id's cache file |
| ImageUtils.BackgroundLayer | src/image_utils.py:201-204 | the background file when it decodes, a blank one exactly when it does not |
| ImageUtils.ProcessCosmeticItem | src/image_utils.py:181-207 | a tile: icon and background choice, banner placement, upper-cased name, name font and centred text |
| ImageUtils.FooterLines | src/image_utils.py:138-140 | three footer lines, the first `Total items: <count>` |
| ImageUtils.FooterCountReadBack | src/image_utils.py:138 | two footers with the same first line count the same number of items |
| ImageUtils.CombineImages | src/image_utils.py:89-178 | the canvas holds the tiles laid out as `LaidOut` states: the least column count c ≥ 6 with ceil(n/c) ≤ c, rows = ceil(n/c), size = min(1848 // cols, 2048 // rows), row-major positions, the three footer lines, the logo box centred in the footer strip and the shrunk footer font |
| ImageUtils.VisibleInfosInOrder | src/image_utils.py:226 | the kept items are a subsequence of the resolved items, in input order |
| ImageUtils.VisibleInfosExactly | src/image_utils.py:226 | an item is kept exactly when its stripped, lower-cased name is not `unknown` |
| ImageUtils.VisibleInfosEmpty | src/image_utils.py:226-228 | nothing is kept exactly when every name is `unknown` |
| ImageUtils.VisibleInfosCount | src/image_utils.py:226 | a kept item appears as often as in the input; a dropped one not at all |
| ImageUtils.BackgroundFor | src/image_utils.py:232-233 | the rarity's background, falling back to the Common one |
| ImageUtils.ReplaceSpaces | src/image_utils.py:266 | same length, every space becomes `_`, nothing else changes |
| ImageUtils.WithLogo | src/image_utils.py:252-257 | the logo is copied into the output directory only when missing there and present at the source |
| ImageUtils.Infos | src/image_utils.py:224 | one resolved info per id, in order, each carrying its id |
| ImageUtils.BuildWorkArgs | src/image_utils.py:230-242 | one work item per kept item, in order, with its background and no substitute |
| ImageUtils.RenderTiles | src/image_utils.py:244-247 | tile k is exactly the tile `_process_cosmetic_item` draws for work item k (`TileFor`): layers, background size, banner placement, upper-cased name, name font and centred x |
| ImageUtils.DrawVisible | src/image_utils.py:230-267 | the canvas depicts the kept items in order, each tile the full tile of its work item read from the cache, laid out as `combine_images` does with a footer counting them; the cache gains the logo copy and the output file |
| ImageUtils.CreateCheckerImage | src/image_utils.py:210-268 | an image is made exactly when some resolved name is kept; it is the group's output file, its canvas depicting the kept items (full tiles and `combine_images` layout) from the filled cache; the cache afterwards is the icon fill, plus the logo copy and the output file when an image was made |
| Bot.CosmeticIdBetweenColons | bot.py:195 | the stored id is the text between the first colon and the next colon or the end |
| Bot.BucketedExactly | bot.py:191-196 | an item is bucketed exactly when its lower-cased template id avoids the loading-screen token and matches the pattern, under its category's name |
| Bot.ParseInventory | bot.py:189-201 | the parsing loop builds the inventory of the profile and banner ids |
| Bot.StepGet | bot.py:197 | one append adds the item's id to its own bucket only |
| Bot.BucketGet | bot.py:190-197 | each bucket is its old contents followed by its items' ids in profile order |
| Bot.BucketKeys | bot.py:196-197 | a bucket exists only if some item was put in it |
| Bot.IdsInFrom | bot.py:190-197 | every id in a bucket comes from an item that contributed it to that bucket |
| Bot.InventoryContents | bot.py:189-201 | each bucket holds its category's ids in profile order, and Banners also the banner ids after them |
| Bot.InventoryOrigins | bot.py:189-197 | every bucket is named after a category; every id in it comes from a profile item classified into it |
| Bot.WithBannersExtends | bot.py:199-201 | banner ids go after the existing Banners ids; nothing else changes; no banner ids change nothing |
| Bot.CollectIds | bot.py:220-226 | the loop builds the ids the category shows |
| Bot.ConcatGroups | bot.py:222-224 | extending per group gives the buckets concatenated in group order |
| Bot.ConcatSix | bot.py:222-224 | concatenating six groups is their buckets one after another |
| Bot.AllCosmeticsOrder | bot.py:220-224 | All Cosmetics shows the Skins, Back Blings, Pickaxes, Emotes, Gliders and Banners buckets in that order |
| Bot.ConcatOnlyListed | bot.py:222-224 | the concatenation depends only on the listed buckets |
| Bot.AllCosmeticsIgnoresOtherBuckets | bot.py:220-224 | Wraps, Sprays, Others or any unlisted bucket never reach All Cosmetics |
| Bot.CategoryButtons | bot.py:42-60 | every category button names a listed group or All Cosmetics, no two the same; the info, exit and login ids are not category buttons |
| Bot.ButtonShowingInverts | bot.py:52-60 | the group a category button shows determines the button |
| Bot.SharedOutputPathsCollide | bot.py:236 | as written, two users' images of a group get the same path in the shared `output` directory |
| Bot.OutputPathsPerUser | bot.py:394 | with per-user directories, equal output paths mean the same user |
| Bot.UserOfPath | bot.py:394 | the second path component of a per-user output path is the user's id |
| Bot.ExitFiles | bot.py:327-332 | after an exit, exactly the files that are none of the session's image paths remain, unchanged |
| Bot.SharedExitDeletesOthersImage | bot.py:325-335 | as written, two sessions that drew the same group store the same path, and one user's exit deletes the image the other's session still names |
| Bot.StoredPathsStore | bot.py:404-405 | storing a user's output path for a category keeps every stored path the layout's path for its user and category |
| Bot.ExitSparesOtherUsers | bot.py:325-335 | with per-user paths, one user's exit leaves every other user's images in place |
| Bot.StoredPathsRemove | bot.py:334 | removing a session keeps every stored path the layout's path |
| Bot.ShownIdsPermutes | bot.py:392 | the sorted ids are a permutation of the ids to show |
| Bot.DrawnIffVisibleId | src/image_utils.py:224-228 | some tile is drawn exactly when some id resolves to a name other than `unknown` |
| Bot.ShownIdsDraw | bot.py:390-404 | sorting first does not change whether an image is made: one is made exactly when some id of the category resolves to a known name |
| Bot.UserCache.constructor | bot.py:40 | the session cache starts empty, with the given directory layout |
| Bot.UserCache.Render | bot.py:390-402 | an image is made exactly when a sorted id keeps its name; it is the group's file in the given directory and depicts the kept items in rarity order; the cache afterwards is the icon fill plus, when drawn, the logo copy and the image |
| Bot.UserCache.DrawAndStore | bot.py:390-405 | as Render, in the layout's directory for the user; the session gains the category's path exactly when an image was made, and nothing else changes |
| Bot.UserCache.PreGenerateCategory | bot.py:212-249 | nothing changes for an absent user, an already drawn category or no ids; otherwise the ids resolve through the current banner name map, the cache is as Render leaves it in the layout's directory (`output` when shared, as at bot.py:236), and the path is stored exactly when an image was made |
| Bot.UserCache.Login | bot.py:188-276 | the banner cache and name map are filled from the common_core banner ids; the inventory holds the athena items and those banners; the new session has the panel text, name and inventory; Skins is drawn with the new names, and its path stored exactly when an image was made; other sessions are unchanged |
| Bot.UserCache.StartSession | bot.py:263-270 | the fresh session replaces any old one for the user, and its Skins are drawn into the layout's directory as PreGenerateCategory states |
| Bot.UserCache.DeleteFiles | bot.py:327-332 | each existing file of the set is removed, nothing else |
| Bot.UserCache.Exit | bot.py:325-335 | the session's images are deleted and the session removed; an absent user changes nothing |
| Bot.UserCache.ShowCategory | bot.py:366-412 | `ShowsCategory`: a cached path is reused untouched; no ids gives "no items"; otherwise the cache is as Render leaves it in the layout's directory, the reply is a failure exactly when no image was made (session unchanged), and otherwise the layout's path is attached and stored; other sessions never change |
| Bot.UserCache.DrawAndReply | bot.py:390-412 | drawing a category with ids: the failure reply exactly when nothing was drawn, else the new path attached and stored |
| Bot.ShowsCategoryKeepsOthers | bot.py:366-405 | a category press leaves every other user's session as it was |
| Bot.UserCache.OnInteraction | bot.py:293-412 | login starts the flow and changes nothing; exit removes the session and deletes exactly its images; info and category buttons answer "expired" exactly for absent users; a category button of a present user does what ShowCategory states for `CATEGORY_MAP[custom_id]` (reply, sessions and cache); info shows the panel; other ids are ignored; other users' sessions never change |

## Left out

- Python's `lower` and `upper` are modelled for ASCII only; Unicode case mapping is not modelled.
- HTTP transport, JSON decoding and status codes become input maps holding the bodies of 200 answers.
  - A non-200 banners catalog is an empty catalog, keyed by lower-cased banner id.
- `get_account_info`, `get_profile_info`, `get_account_stats`, `set_affiliate` and `grab_profile` are not modelled.
  - Only their string helpers are: `mask_email`, `mask_account_id` and `country_to_flag`.
  - The account panel text is an input string of `Login`; the athena and common_core profiles are its input item lists, the common_core one absent when that query failed.
- Dates and the clock: the footer's date stamp and the invite code are inputs.
- PIL pixel work is not modelled. An image is its size, text width is an input function, and PNG encoding is an input function of the layout.
- ImageUtils.CombineImages: the logo's scaled size comes from an input function, because it is computed with floats (`int(footer_height * 0.6)`).
- `math.ceil(n / c)` on floats is modelled as the exact integer ceiling.
- ImageUtils.ChooseGrid and ImageUtils.CombineImages require at least one tile.
  - Their only caller draws only when an item was kept.
  - With no tiles the source would divide by zero rows.
- The unreachable `if not images` check in `create_checker_image` is dropped, because one tile is drawn per kept item.
- Concurrency is not modelled.
  - `asyncio.gather` and the process pool run sequentially, in input order.
  - The background pre-generation task runs to completion inside `Login`.
  - An exit that races a running generation is not modelled.
- Exceptions are not modelled.
  - The `try/except` around pre-generation and the login flow are not modelled.
  - A failing `os.remove` is not modelled.
  - `os.makedirs` is not modelled; directories are implicit in the file map.
- `os.path.join` is written as `/`, and the source and cache directories are fixed relative prefixes.
- Bot.UserCache.Login models a successful `fetch_user_data` only.
  - A failed fetch stores nothing and is not a separate member.
  - The Discord login dialogue is reduced to the `LoginStarted` reply.
- Discord UI construction, message edits and attachments are reduced to `Reply` tags.
- src/epic_auth.py and loader.py are not part of this model.
- The banner branch of `get_cosmetic_info` tests the mythic list with the full lower-cased id, `banner_` prefix included, and the model does the same.
- Python's `if path:` on the render result is modelled as the presence of a path, since the path is never empty.
- The session cache takes its directory layout as a parameter.
  - `Shared` is the source as written: every user draws into `output`.
  - `PerUser` is the corrected behaviour described under Findings: `output/<user id>`.
  - Bot.SharedExitDeletesOthersImage and Bot.ExitSparesOtherUsers state what each layout means for an exit.

## Findings

| source | as written | input that shows it | evidently intended | confidence | as-written member | corrected member |
|---|---|---|---|---|---|---|
| bot.py:394 | every user's images go to `output/<group>.png` (also bot.py:236), and exit deletes every stored path | users 1 and 2 both open Skins; both sessions store `output/skins.png`; user 1 exits and deletes the file user 2's cached path still names | each user's images are kept apart, so an exit removes only that user's own images | medium, not executed | Bot.SharedExitDeletesOthersImage | Bot.ExitSparesOtherUsers |
