/** Metadata resolution, ordering and the cache-filling routines of
    src/fortnite_api.py. HTTP answers are inputs: a map from what was asked
    for to the body of a 200 answer, absent when the server answered
    anything else. */
module FortniteApi {
  import opened Base
  import opened Config

  // ------------------------------------------------------ cosmetic metadata

  /** The two fields read from a 200 answer of the cosmetics endpoint:
      `data.rarity.displayValue` and `data.name`, `None` when missing. */
  datatype CatalogEntry = CatalogEntry(rarity: Option<string>, name: Option<string>)

  /** The `{id, rarity, name}` record `get_cosmetic_info` returns. */
  datatype CosmeticInfo = CosmeticInfo(id: string, rarity: string, name: string)

  function LowerAll(ss: seq<string>): seq<string> {
    seq(|ss|, i requires 0 <= i < |ss| => Lower(ss[i]))
  }

  /** The lower-cased id is one of the lower-cased `mythic_ids`. */
  predicate IsMythic(id: string) {
    Lower(id) in LowerAll(MythicIds)
  }

  /** The lower-cased id starts with `banner_`. */
  predicate IsBannerId(id: string) {
    BannerPrefix <= Lower(id)
  }

  function OrElse(o: Option<string>, d: string): string {
    match o
    case Some(v) => v
    case None => d
  }

  /** `get_cosmetic_info`. `catalog` holds the ids the cosmetics endpoint
      answers with 200, `bannerNames` is the current `banner_name_map`. */
  function GetCosmeticInfo(id: string, catalog: map<string, CatalogEntry>, bannerNames: map<string, string>): (r: CosmeticInfo)
    ensures r.id == id
    ensures IsMythic(id) && (IsBannerId(id) || id in catalog) ==> r.rarity == "Mythic"
    ensures IsBannerId(id) ==> r.rarity in {"Mythic", "Uncommon"}
  {
    var low := Lower(id);
    if BannerPrefix <= low then
      var name := if low in bannerNames then bannerNames[low] else "Banner " + id;
      CosmeticInfo(id, if IsMythic(id) then "Mythic" else "Uncommon", name)
    else if id !in catalog then
      CosmeticInfo(id, "Common", "Unknown")
    else
      var e := catalog[id];
      var rarity := if IsMythic(id) then "Mythic" else OrElse(e.rarity, "Common");
      var name := OrElse(e.name, "Unknown");
      CosmeticInfo(id, rarity, if name == "Unknown" then id else name)
  }

  /** A banner is resolved without the catalog: its name comes from the banner
      name map (keyed by the lower-cased id) or is `Banner <id>`. */
  lemma BannerInfoNeedsNoLookup(id: string, c1: map<string, CatalogEntry>, c2: map<string, CatalogEntry>, names: map<string, string>)
    requires IsBannerId(id)
    ensures GetCosmeticInfo(id, c1, names) == GetCosmeticInfo(id, c2, names)
    ensures GetCosmeticInfo(id, c1, names).name ==
      if Lower(id) in names then names[Lower(id)] else "Banner " + id
    ensures GetCosmeticInfo(id, c1, names).rarity == "Mythic" <==> IsMythic(id)
  {
  }

  /** Outside the banner branch a failed lookup gives Common and `Unknown`,
      and a successful one never gives the name `Unknown` (unless that is the
      id itself). */
  lemma UnknownNameMeansFailedLookup(id: string, catalog: map<string, CatalogEntry>, names: map<string, string>)
    requires !IsBannerId(id)
    ensures id !in catalog ==> GetCosmeticInfo(id, catalog, names) == CosmeticInfo(id, "Common", "Unknown")
    ensures id in catalog && id != "Unknown" ==> GetCosmeticInfo(id, catalog, names).name != "Unknown"
  {
  }

  /** After a successful lookup the catalog's rarity is used unless the id is
      mythic, and a missing or literal `Unknown` name gives the id. */
  lemma FoundInfo(id: string, catalog: map<string, CatalogEntry>, names: map<string, string>)
    requires !IsBannerId(id) && id in catalog
    ensures !IsMythic(id) ==> GetCosmeticInfo(id, catalog, names).rarity == OrElse(catalog[id].rarity, "Common")
    ensures catalog[id].name.None? ==> GetCosmeticInfo(id, catalog, names).name == id
    ensures catalog[id].name == Some("Unknown") ==> GetCosmeticInfo(id, catalog, names).name == id
    ensures catalog[id].name.Some? && catalog[id].name.value != "Unknown" ==>
      GetCosmeticInfo(id, catalog, names).name == catalog[id].name.value
  {
  }

  // --------------------------------------------------------------- ordering

  /** The key tuple `(item_order_rank, rarity_rank, sub_rank)`. */
  datatype SortKey = SortKey(category: int, rarity: int, sub: int)

  /** Python's `<=` on the key tuples: lexicographic. */
  predicate KeyLe(a: SortKey, b: SortKey) {
    a.category < b.category
    || (a.category == b.category && (a.rarity < b.rarity || (a.rarity == b.rarity && a.sub <= b.sub)))
  }

  /** The lexicographic order is total and antisymmetric. */
  lemma KeyLeTotal(a: SortKey, b: SortKey)
    ensures KeyLe(a, b) || KeyLe(b, a)
    ensures KeyLe(a, b) && KeyLe(b, a) ==> a == b
  {
  }

  /** `xs.index(x) if x in xs else len(xs)`. */
  function IndexOf(xs: seq<string>, x: string): (k: nat)
    ensures k <= |xs| && x !in xs[..k]
    ensures k < |xs| ==> xs[k] == x
  {
    if xs == [] then 0
    else if xs[0] == x then 0
    else 1 + IndexOf(xs[1..], x)
  }

  const UnrankedRarity: int := 999
  const UnrankedSub: int := 9999

  /** `get_sort_key`. */
  function KeyOf(info: CosmeticInfo, itemOrder: seq<string>): SortKey {
    SortKey(
      IndexOf(itemOrder, CategoryName(GetCosmeticType(info.id))),
      if info.rarity in RarityPriority then RarityPriority[info.rarity] else UnrankedRarity,
      if Lower(info.id) in SubOrder then SubOrder[Lower(info.id)] else UnrankedSub)
  }

  /** Every key component lies in its documented range. */
  lemma KeyOfBounds(info: CosmeticInfo, itemOrder: seq<string>)
    ensures 0 <= KeyOf(info, itemOrder).category <= |itemOrder|
    ensures 1 <= KeyOf(info, itemOrder).rarity <= 16 || KeyOf(info, itemOrder).rarity == UnrankedRarity
    ensures 1 <= KeyOf(info, itemOrder).sub <= 26 || KeyOf(info, itemOrder).sub == UnrankedSub
  {
    RarityPriorityRanks();
    SubOrderRanks();
  }

  /** Insert `x` before the first element whose key is not smaller. */
  function Insert(x: string, s: seq<string>, key: string -> SortKey): seq<string> {
    if s == [] then [x]
    else if KeyLe(key(x), key(s[0])) then [x] + s
    else [s[0]] + Insert(x, s[1..], key)
  }

  /** Python's `sorted(..., key=key)`: a stable sort, written as insertion sort. */
  function StableSort(s: seq<string>, key: string -> SortKey): seq<string> {
    if s == [] then [] else Insert(s[0], StableSort(s[1..], key), key)
  }

  predicate SortedBy(s: seq<string>, key: string -> SortKey) {
    forall i, j :: 0 <= i < j < |s| ==> KeyLe(key(s[i]), key(s[j]))
  }

  /** The elements of `s` whose key is `k`, in order. */
  function WithKey(s: seq<string>, key: string -> SortKey, k: SortKey): seq<string> {
    if s == [] then []
    else (if key(s[0]) == k then [s[0]] else []) + WithKey(s[1..], key, k)
  }

  lemma {:induction false} InsertPermutes(x: string, s: seq<string>, key: string -> SortKey)
    ensures multiset(Insert(x, s, key)) == multiset(s) + multiset{x}
  {
    if s != [] && !KeyLe(key(x), key(s[0])) {
      InsertPermutes(x, s[1..], key);
      assert s == [s[0]] + s[1..];
    }
  }

  /** A sorted list stays sorted under a head whose key is at most every key in it. */
  lemma ConsSorted(x: string, s: seq<string>, key: string -> SortKey)
    requires SortedBy(s, key)
    requires forall y :: y in s ==> KeyLe(key(x), key(y))
    ensures SortedBy([x] + s, key)
  {
    var r := [x] + s;
    forall i, j | 0 <= i < j < |r| ensures KeyLe(key(r[i]), key(r[j])) {
      assert r[j] == s[j - 1];
      if i > 0 {
        assert r[i] == s[i - 1];
      }
    }
  }

  lemma {:induction false} InsertSorted(x: string, s: seq<string>, key: string -> SortKey)
    requires SortedBy(s, key)
    ensures SortedBy(Insert(x, s, key), key)
  {
    if s == [] {
    } else if KeyLe(key(x), key(s[0])) {
      forall y | y in s ensures KeyLe(key(x), key(y)) {
        var j :| 0 <= j < |s| && s[j] == y;
        if j > 0 {
          KeyLeTrans(key(x), key(s[0]), key(y));
        }
      }
      ConsSorted(x, s, key);
    } else {
      KeyLeTotal(key(x), key(s[0]));
      assert SortedBy(s[1..], key) by {
        forall i, j | 0 <= i < j < |s[1..]| ensures KeyLe(key(s[1..][i]), key(s[1..][j])) {
          assert s[1..][i] == s[i + 1] && s[1..][j] == s[j + 1];
        }
      }
      InsertSorted(x, s[1..], key);
      InsertPermutes(x, s[1..], key);
      var t := Insert(x, s[1..], key);
      forall y | y in t ensures KeyLe(key(s[0]), key(y)) {
        assert y in multiset(t);
        if y != x {
          var j :| 0 <= j < |s[1..]| && s[1..][j] == y;
          assert s[j + 1] == y;
        }
      }
      ConsSorted(s[0], t, key);
    }
  }

  lemma KeyLeTrans(a: SortKey, b: SortKey, c: SortKey)
    requires KeyLe(a, b) && KeyLe(b, c)
    ensures KeyLe(a, c)
  {
  }

  lemma {:induction false} InsertStable(x: string, s: seq<string>, key: string -> SortKey, k: SortKey)
    requires SortedBy(s, key)
    ensures WithKey(Insert(x, s, key), key, k) ==
      (if key(x) == k then [x] else []) + WithKey(s, key, k)
  {
    if s != [] && !KeyLe(key(x), key(s[0])) {
      KeyLeTotal(key(x), key(s[0]));
      InsertStable(x, s[1..], key, k);
    }
  }

  /** The sorted list is a permutation of its input. */
  lemma {:induction false} SortPermutes(s: seq<string>, key: string -> SortKey)
    ensures multiset(StableSort(s, key)) == multiset(s)
  {
    if s != [] {
      SortPermutes(s[1..], key);
      InsertPermutes(s[0], StableSort(s[1..], key), key);
      assert s == [s[0]] + s[1..];
    }
  }

  /** The sorted list is nondecreasing in the key. */
  lemma {:induction false} SortSorted(s: seq<string>, key: string -> SortKey)
    ensures SortedBy(StableSort(s, key), key)
  {
    if s != [] {
      SortSorted(s[1..], key);
      InsertSorted(s[0], StableSort(s[1..], key), key);
    }
  }

  /** Elements with equal keys keep their input order. */
  lemma {:induction false} SortStable(s: seq<string>, key: string -> SortKey, k: SortKey)
    ensures WithKey(StableSort(s, key), key, k) == WithKey(s, key, k)
  {
    if s != [] {
      SortStable(s[1..], key, k);
      SortSorted(s[1..], key);
      InsertStable(s[0], StableSort(s[1..], key), key, k);
    }
  }

  /** The key `sort_ids_by_rarity` sorts an id by: that of its resolved record. */
  function IdKey(id: string, itemOrder: seq<string>, catalog: map<string, CatalogEntry>, bannerNames: map<string, string>): SortKey {
    KeyOf(GetCosmeticInfo(id, catalog, bannerNames), itemOrder)
  }

  /** `sort_ids_by_rarity`: resolve every id, sort the records by key, keep the ids. */
  function SortIdsByRarity(ids: seq<string>, itemOrder: seq<string>, catalog: map<string, CatalogEntry>, bannerNames: map<string, string>): seq<string> {
    StableSort(ids, id => IdKey(id, itemOrder, catalog, bannerNames))
  }

  /** The result is a permutation of the ids, nondecreasing in the key, and
      ids with equal keys keep their input order. */
  lemma SortIdsByRarityCorrect(ids: seq<string>, itemOrder: seq<string>, catalog: map<string, CatalogEntry>, bannerNames: map<string, string>, k: SortKey)
    ensures var r := SortIdsByRarity(ids, itemOrder, catalog, bannerNames);
      multiset(r) == multiset(ids)
      && (forall i, j :: 0 <= i < j < |r| ==>
            KeyLe(IdKey(r[i], itemOrder, catalog, bannerNames), IdKey(r[j], itemOrder, catalog, bannerNames)))
      && WithKey(r, id => IdKey(id, itemOrder, catalog, bannerNames), k)
         == WithKey(ids, id => IdKey(id, itemOrder, catalog, bannerNames), k)
  {
    var key := id => IdKey(id, itemOrder, catalog, bannerNames);
    SortPermutes(ids, key);
    SortSorted(ids, key);
    SortStable(ids, key, k);
  }

  // ------------------------------------------------------------ the cache

  /** The cache directory: file path to contents. */
  class Disk {
    var files: map<string, Bytes>

    constructor (files0: map<string, Bytes>)
      ensures files == files0
    {
      files := files0;
    }
  }

  /** `os.path.join(CACHE_DIR, f"{cid}.png")`, with `CACHE_DIR` written `cache`. */
  function CachePath(id: string): string {
    "cache/" + id + ".png"
  }

  lemma CachePathInjective(a: string, b: string)
    requires CachePath(a) == CachePath(b)
    ensures a == b
  {
    assert a == CachePath(a)[6..|CachePath(a)| - 4];
    assert b == CachePath(b)[6..|CachePath(b)| - 4];
  }

  /** `os.path.exists(p) and os.path.getsize(p) > 0`. */
  predicate CacheHit(files: map<string, Bytes>, path: string) {
    path in files && |files[path]| > 0
  }

  function IconUrl(id: string): string {
    "https://fortnite-api.com/images/cosmetics/br/" + id + "/icon.png"
  }

  function SmallIconUrl(id: string): string {
    "https://fortnite-api.com/images/cosmetics/br/" + id + "/smallicon.png"
  }

  /** The body of the first URL that answers 200. */
  function FirstSuccess(urls: seq<string>, fetch: map<string, Bytes>): Option<Bytes> {
    if urls == [] then None
    else if urls[0] in fetch then Some(fetch[urls[0]])
    else FirstSuccess(urls[1..], fetch)
  }

  /** Nothing is fetched exactly when no URL answers; otherwise the body is
      the answer of a URL that answers while every URL before it does not. */
  lemma {:induction false} FirstSuccessIsFirst(urls: seq<string>, fetch: map<string, Bytes>)
    ensures FirstSuccess(urls, fetch).None? <==> forall u :: u in urls ==> u !in fetch
    ensures FirstSuccess(urls, fetch).Some? ==>
      exists i :: 0 <= i < |urls| && urls[i] in fetch && FirstSuccess(urls, fetch).value == fetch[urls[i]]
                  && (forall j :: 0 <= j < i ==> urls[j] !in fetch)
  {
    if urls != [] {
      if urls[0] in fetch {
        assert urls[0] in urls;
      } else {
        FirstSuccessIsFirst(urls[1..], fetch);
        if FirstSuccess(urls, fetch).Some? {
          var i :| 0 <= i < |urls[1..]| && urls[1..][i] in fetch && FirstSuccess(urls, fetch).value == fetch[urls[1..][i]]
                   && (forall j :: 0 <= j < i ==> urls[1..][j] !in fetch);
          assert urls[i + 1] == urls[1..][i];
          assert forall j :: 0 <= j < i + 1 ==> urls[j] !in fetch by {
            forall j | 0 <= j < i + 1 ensures urls[j] !in fetch {
              if j > 0 {
                assert urls[j] == urls[1..][j - 1];
              }
            }
          }
        } else {
          assert urls == [urls[0]] + urls[1..];
        }
      }
    }
  }

  /** What `_download` writes for a cache miss: the icon, else the small icon,
      else the placeholder's bytes. */
  function Downloaded(id: string, fetch: map<string, Bytes>, placeholder: Bytes): (b: Bytes)
    ensures IconUrl(id) in fetch ==> b == fetch[IconUrl(id)]
    ensures IconUrl(id) !in fetch && SmallIconUrl(id) in fetch ==> b == fetch[SmallIconUrl(id)]
    ensures IconUrl(id) !in fetch && SmallIconUrl(id) !in fetch ==> b == placeholder
  {
    var urls := [IconUrl(id), SmallIconUrl(id)];
    assert FirstSuccess(urls, fetch)
        == if IconUrl(id) in fetch then Some(fetch[IconUrl(id)])
           else if SmallIconUrl(id) in fetch then Some(fetch[SmallIconUrl(id)])
           else None by {
      assert urls[1..] == [SmallIconUrl(id)] && urls[1..][1..] == [];
      assert FirstSuccess(urls[1..][1..], fetch) == None;
      assert FirstSuccess(urls[1..], fetch)
          == if SmallIconUrl(id) in fetch then Some(fetch[SmallIconUrl(id)]) else None;
    }
    match FirstSuccess(urls, fetch)
    case Some(body) => body
    case None => placeholder
  }

  /** One `_download(cid)`. */
  function DownloadOne(files: map<string, Bytes>, id: string, fetch: map<string, Bytes>, placeholder: Bytes): map<string, Bytes> {
    if IsBannerId(id) || CacheHit(files, CachePath(id)) then files
    else files[CachePath(id) := Downloaded(id, fetch, placeholder)]
  }

  /** The downloads of `ids`, one after the other. */
  function DownloadAll(files: map<string, Bytes>, ids: seq<string>, fetch: map<string, Bytes>, placeholder: Bytes): map<string, Bytes>
    decreases |ids|
  {
    if ids == [] then files
    else DownloadAll(DownloadOne(files, ids[0], fetch, placeholder), ids[1..], fetch, placeholder)
  }

  /** A path that no non-banner id of the list maps to is left as it was. */
  lemma {:induction false} DownloadAllElsewhere(f: map<string, Bytes>, ids: seq<string>, fetch: map<string, Bytes>, placeholder: Bytes, p: string)
    requires forall i :: 0 <= i < |ids| ==> IsBannerId(ids[i]) || CachePath(ids[i]) != p
    ensures var r := DownloadAll(f, ids, fetch, placeholder);
      (p in r <==> p in f) && (p in f ==> r[p] == f[p])
    decreases |ids|
  {
    if ids != [] {
      DownloadAllElsewhere(DownloadOne(f, ids[0], fetch, placeholder), ids[1..], fetch, placeholder, p);
    }
  }

  /** Once an id's cache file is a hit, or holds what the download would
      write, later downloads leave it as it is. */
  lemma {:induction false} DownloadAllSettled(f: map<string, Bytes>, ids: seq<string>, fetch: map<string, Bytes>, placeholder: Bytes, id: string)
    requires !IsBannerId(id) && CachePath(id) in f
    requires CacheHit(f, CachePath(id)) || f[CachePath(id)] == Downloaded(id, fetch, placeholder)
    ensures var r := DownloadAll(f, ids, fetch, placeholder);
      CachePath(id) in r && r[CachePath(id)] == f[CachePath(id)]
    decreases |ids|
  {
    if ids != [] {
      var g := DownloadOne(f, ids[0], fetch, placeholder);
      if !IsBannerId(ids[0]) && CachePath(ids[0]) == CachePath(id) {
        CachePathInjective(ids[0], id);
      }
      DownloadAllSettled(g, ids[1..], fetch, placeholder, id);
    }
  }

  /** The cache file of every non-banner id of the list ends up as it was if it
      was a hit, and otherwise as the first icon that answered 200 or the
      placeholder. */
  lemma {:induction false} DownloadAllAt(f: map<string, Bytes>, ids: seq<string>, fetch: map<string, Bytes>, placeholder: Bytes, id: string)
    requires id in ids && !IsBannerId(id)
    ensures var r := DownloadAll(f, ids, fetch, placeholder);
      CachePath(id) in r
      && r[CachePath(id)] == if CacheHit(f, CachePath(id)) then f[CachePath(id)] else Downloaded(id, fetch, placeholder)
    decreases |ids|
  {
    var g := DownloadOne(f, ids[0], fetch, placeholder);
    if ids[0] == id {
      DownloadAllSettled(g, ids[1..], fetch, placeholder, id);
    } else {
      if !IsBannerId(ids[0]) && CachePath(ids[0]) == CachePath(id) {
        CachePathInjective(ids[0], id);
      }
      assert id in ids[1..] by {
        assert ids == [ids[0]] + ids[1..];
      }
      DownloadAllAt(g, ids[1..], fetch, placeholder, id);
    }
  }

  /** Running the downloads a second time changes nothing. */
  lemma DownloadAllIdempotent(f: map<string, Bytes>, ids: seq<string>, fetch: map<string, Bytes>, placeholder: Bytes)
    ensures var r := DownloadAll(f, ids, fetch, placeholder);
      DownloadAll(r, ids, fetch, placeholder) == r
  {
    var r := DownloadAll(f, ids, fetch, placeholder);
    var r2 := DownloadAll(r, ids, fetch, placeholder);
    forall p ensures (p in r2 <==> p in r) && (p in r ==> r2[p] == r[p]) {
      if i :| 0 <= i < |ids| && !IsBannerId(ids[i]) && CachePath(ids[i]) == p {
        DownloadAllAt(f, ids, fetch, placeholder, ids[i]);
        DownloadAllAt(r, ids, fetch, placeholder, ids[i]);
      } else {
        DownloadAllElsewhere(r, ids, fetch, placeholder, p);
      }
    }
  }

  /** `_download(cid)`: skip banners and cache hits, else write the first
      icon that answers 200, else the placeholder. */
  method Download(disk: Disk, id: string, fetch: map<string, Bytes>, placeholder: Bytes)
    modifies disk
    ensures disk.files == DownloadOne(old(disk.files), id, fetch, placeholder)
  {
    if BannerPrefix <= Lower(id) {
      assert IsBannerId(id);
      return;
    }
    var path := CachePath(id);
    if path in disk.files && |disk.files[path]| > 0 {
      assert CacheHit(disk.files, CachePath(id));
      return;
    }
    var urls := [IconUrl(id), SmallIconUrl(id)];
    var u := 0;
    while u < |urls|
      invariant 0 <= u <= |urls|
      invariant disk.files == old(disk.files)
      invariant forall v :: 0 <= v < u ==> urls[v] !in fetch
    {
      if urls[u] in fetch {
        assert u == 1 ==> urls[0] !in fetch;
        assert Downloaded(id, fetch, placeholder) == fetch[urls[u]];
        disk.files := disk.files[path := fetch[urls[u]]];
        return;
      }
      u := u + 1;
    }
    assert urls[0] !in fetch && urls[1] !in fetch;
    assert Downloaded(id, fetch, placeholder) == placeholder;
    disk.files := disk.files[path := placeholder];
  }

  /** `download_cosmetic_images`, the concurrent downloads run one by one. */
  method DownloadCosmeticImages(disk: Disk, ids: seq<string>, fetch: map<string, Bytes>, placeholder: Bytes)
    modifies disk
    ensures disk.files == DownloadAll(old(disk.files), ids, fetch, placeholder)
  {
    var i := 0;
    while i < |ids|
      invariant 0 <= i <= |ids|
      invariant DownloadAll(disk.files, ids[i..], fetch, placeholder) == DownloadAll(old(disk.files), ids, fetch, placeholder)
    {
      assert ids[i..] == [ids[i]] + ids[i + 1..];
      Download(disk, ids[i], fetch, placeholder);
      i := i + 1;
    }
  }

  // ------------------------------------------------------------ the profile

  /** One item of the common_core profile: its `templateId` and `quantity`,
      `None` when the field is missing. */
  datatype ProfileItem = ProfileItem(templateId: Option<string>, quantity: Option<int>)

  const VbucksTemplates: seq<string> := [
    "Currency:MtxPurchased", "Currency:MtxEarned", "Currency:MtxGiveaway", "Currency:MtxPurchaseBonus"]

  /** What one item adds to the V-Bucks total (template ids compared exactly). */
  function VbucksOf(item: ProfileItem): int {
    if item.templateId.Some? && item.templateId.value in VbucksTemplates then
      (if item.quantity.Some? then item.quantity.value else 0)
    else 0
  }

  function TotalVbucks(items: seq<ProfileItem>): int {
    if items == [] then 0 else TotalVbucks(items[..|items| - 1]) + VbucksOf(items[|items| - 1])
  }

  /** `get_vbucks_info`; `profile` is `None` when the profile query did not
      answer 200, and so is the result (the error dict). */
  method GetVbucksInfo(profile: Option<seq<ProfileItem>>) returns (total: Option<int>)
    ensures profile.None? ==> total.None?
    ensures profile.Some? ==> total == Some(TotalVbucks(profile.value))
  {
    if profile.None? {
      return None;
    }
    var items := profile.value;
    var sum := 0;
    var i := 0;
    while i < |items|
      invariant 0 <= i <= |items|
      invariant sum == TotalVbucks(items[..i])
    {
      var item := items[i];
      if item.templateId.Some? && item.templateId.value in VbucksTemplates {
        sum := sum + (if item.quantity.Some? then item.quantity.value else 0);
      }
      assert items[..i + 1][..i] == items[..i];
      i := i + 1;
    }
    assert items[..i] == items;
    return Some(sum);
  }

  /** The total of two runs of items is the sum of their totals. */
  lemma {:induction false} TotalVbucksAppend(a: seq<ProfileItem>, b: seq<ProfileItem>)
    ensures TotalVbucks(a + b) == TotalVbucks(a) + TotalVbucks(b)
    decreases |b|
  {
    if b != [] {
      assert (a + b)[..|a + b| - 1] == a + b[..|b| - 1];
      TotalVbucksAppend(a, b[..|b| - 1]);
    } else {
      assert a + b == a;
    }
  }

  /** Only the four currency templates count, and with quantities that are
      not negative the total is not negative either. */
  lemma {:induction false} TotalVbucksCurrencyOnly(items: seq<ProfileItem>)
    ensures (forall i :: 0 <= i < |items| ==> items[i].templateId.None? || items[i].templateId.value !in VbucksTemplates)
      ==> TotalVbucks(items) == 0
    ensures (forall i :: 0 <= i < |items| ==> items[i].quantity.None? || items[i].quantity.value >= 0)
      ==> TotalVbucks(items) >= 0
  {
    if items != [] {
      TotalVbucksCurrencyOnly(items[..|items| - 1]);
    }
  }

  const BannerTemplatePrefix: string := "homebasebanner:"
  const BannerIconTemplatePrefix: string := "homebasebannericon:"

  /** The banner id one profile item contributes, if any. */
  function BannerIdOf(item: ProfileItem): Option<string> {
    var t := Lower(OrElse(item.templateId, ""));
    if (BannerTemplatePrefix <= t || BannerIconTemplatePrefix <= t) && |Split(t, ':')| == 2 then
      Some(Split(t, ':')[1])
    else None
  }

  function BannerIds(items: seq<ProfileItem>): seq<string> {
    if items == [] then []
    else
      var last := items[|items| - 1];
      BannerIds(items[..|items| - 1]) + (if BannerIdOf(last).Some? then [BannerIdOf(last).value] else [])
  }

  /** Behind a prefix ending in its only colon, the split gives two fields
      with second field `b` exactly when the rest is `b` and holds no colon. */
  lemma PrefixedField(t: string, pre: string, b: string)
    requires |pre| >= 1 && pre[|pre| - 1] == ':' && ':' !in pre[..|pre| - 1] && pre <= t
    ensures (|Split(t, ':')| == 2 && Split(t, ':')[1] == b) <==> (':' !in b && t == pre + b)
  {
    SplitAfterPrefix(t, pre, ':');
    var rest := t[|pre|..];
    SplitNone(rest, ':');
    assert t == pre + rest;
  }

  /** An item gives the banner id `b` exactly when its lower-cased template id
      is `homebasebanner:b` or `homebasebannericon:b` and `b` holds no colon. */
  lemma BannerIdOfExactly(item: ProfileItem, b: string)
    ensures var t := Lower(OrElse(item.templateId, ""));
      BannerIdOf(item) == Some(b) <==>
        ':' !in b && (t == BannerTemplatePrefix + b || t == BannerIconTemplatePrefix + b)
  {
    var t := Lower(OrElse(item.templateId, ""));
    if BannerTemplatePrefix <= t {
      PrefixedField(t, BannerTemplatePrefix, b);
      assert t[14] == ':';
      assert (BannerIconTemplatePrefix + b)[14] == 'i';
    } else if BannerIconTemplatePrefix <= t {
      PrefixedField(t, BannerIconTemplatePrefix, b);
      assert t[14] == 'i';
      assert (BannerTemplatePrefix + b)[14] == ':';
    } else {
      assert BannerTemplatePrefix <= BannerTemplatePrefix + b;
      assert BannerIconTemplatePrefix <= BannerIconTemplatePrefix + b;
    }
  }

  /** `get_banners_from_common_core`; `profile` is `None` when the query did
      not answer 200. */
  method GetBannersFromCommonCore(profile: Option<seq<ProfileItem>>) returns (result: seq<string>)
    ensures profile.None? ==> result == []
    ensures profile.Some? ==> result == BannerIds(profile.value)
  {
    result := [];
    if profile.None? {
      return;
    }
    var items := profile.value;
    var i := 0;
    while i < |items|
      invariant 0 <= i <= |items|
      invariant result == BannerIds(items[..i])
    {
      var templateId := Lower(OrElse(items[i].templateId, ""));
      if BannerTemplatePrefix <= templateId || BannerIconTemplatePrefix <= templateId {
        var splitted := Split(templateId, ':');
        if |splitted| == 2 {
          result := result + [splitted[1]];
        }
      }
      assert items[..i + 1][..i] == items[..i];
      i := i + 1;
    }
    assert items[..i] == items;
  }

  // ---------------------------------------------------------------- banners

  /** The two fields read from an entry of the banners endpoint: `devName`
      and `images.icon`, `None` when missing. */
  datatype BannerEntry = BannerEntry(devName: Option<string>, icon: Option<string>)

  /** The cosmetic id given to a raw banner id. */
  function BannerCid(raw: string): string {
    BannerPrefix + Lower(raw)
  }

  lemma BannerCidPathInjective(a: string, b: string)
    requires CachePath(BannerCid(a)) == CachePath(BannerCid(b))
    ensures Lower(a) == Lower(b)
  {
    CachePathInjective(BannerCid(a), BannerCid(b));
    assert Lower(a) == BannerCid(a)[7..];
  }

  /** `info.get("devName", f"Banner {cid}")`. */
  function BannerDisplayName(cid: string, e: BannerEntry): string {
    OrElse(e.devName, "Banner " + cid)
  }

  /** `if not icon_url`: a missing or empty icon URL. */
  predicate HasIcon(e: BannerEntry) {
    e.icon.Some? && |e.icon.value| > 0
  }

  /** The cache, the banner name map and the ids returned so far. */
  datatype BannerState = BannerState(files: map<string, Bytes>, names: map<string, string>, ids: seq<string>)

  /** One turn of the loop of `download_and_prepare_banners`. `catalog` is keyed
      by lower-cased banner id and is empty when the endpoint did not answer
      200; `fetch` maps icon URLs to the bodies of 200 answers. */
  function BannerStep(st: BannerState, raw: string, catalog: map<string, BannerEntry>, fetch: map<string, Bytes>): BannerState {
    var cid := BannerCid(raw);
    var path := CachePath(cid);
    if Lower(raw) !in catalog then st
    else
      var e := catalog[Lower(raw)];
      var names := st.names[cid := BannerDisplayName(cid, e)];
      if !HasIcon(e) then st.(names := names)
      else if CacheHit(st.files, path) then BannerState(st.files, names, st.ids + [cid])
      else if e.icon.value in fetch then BannerState(st.files[path := fetch[e.icon.value]], names, st.ids + [cid])
      else st.(names := names)
  }

  function PrepareBanners(st: BannerState, raws: seq<string>, catalog: map<string, BannerEntry>, fetch: map<string, Bytes>): BannerState
    decreases |raws|
  {
    if raws == [] then st
    else PrepareBanners(BannerStep(st, raws[0], catalog, fetch), raws[1..], catalog, fetch)
  }

  /** `download_and_prepare_banners` after the profile query: `raws` are the
      banner ids it returned. */
  method DownloadAndPrepareBanners(disk: Disk, bannerNames: BannerNameMap, raws: seq<string>,
                                   catalog: map<string, BannerEntry>, fetch: map<string, Bytes>)
    returns (finalIds: seq<string>)
    modifies disk, bannerNames
    ensures var st := PrepareBanners(BannerState(old(disk.files), old(bannerNames.entries), []), raws, catalog, fetch);
      disk.files == st.files && bannerNames.entries == st.names && finalIds == st.ids
  {
    finalIds := [];
    if raws == [] {
      return;
    }
    var i := 0;
    while i < |raws|
      invariant 0 <= i <= |raws|
      invariant PrepareBanners(BannerState(disk.files, bannerNames.entries, finalIds), raws[i..], catalog, fetch)
             == PrepareBanners(BannerState(old(disk.files), old(bannerNames.entries), []), raws, catalog, fetch)
    {
      var bn := raws[i];
      ghost var before := BannerState(disk.files, bannerNames.entries, finalIds);
      assert raws[i..] == [bn] + raws[i + 1..];
      i := i + 1;
      var cid := BannerPrefix + Lower(bn);
      var pathImg := CachePath(cid);
      if Lower(bn) !in catalog {
        continue;
      }
      var info := catalog[Lower(bn)];
      bannerNames.entries := bannerNames.entries[cid := BannerDisplayName(cid, info)];
      if !(info.icon.Some? && |info.icon.value| > 0) {
        continue;
      }
      if pathImg in disk.files && |disk.files[pathImg]| > 0 {
        finalIds := finalIds + [cid];
        continue;
      }
      if info.icon.value in fetch {
        disk.files := disk.files[pathImg := fetch[info.icon.value]];
        finalIds := finalIds + [cid];
      }
      assert BannerState(disk.files, bannerNames.entries, finalIds) == BannerStep(before, bn, catalog, fetch);
    }
  }

  /** Whether a raw banner id ends up in the result, judged on the cache as
      it was before the loop. */
  predicate BannerKept(files: map<string, Bytes>, raw: string, catalog: map<string, BannerEntry>, fetch: map<string, Bytes>) {
    Lower(raw) in catalog && HasIcon(catalog[Lower(raw)])
    && (CacheHit(files, CachePath(BannerCid(raw))) || catalog[Lower(raw)].icon.value in fetch)
  }

  /** The cosmetic ids of the kept raw ids, in profile order. */
  function KeptBannerIds(files: map<string, Bytes>, raws: seq<string>, catalog: map<string, BannerEntry>, fetch: map<string, Bytes>): seq<string> {
    if raws == [] then []
    else (if BannerKept(files, raws[0], catalog, fetch) then [BannerCid(raws[0])] else [])
         + KeptBannerIds(files, raws[1..], catalog, fetch)
  }

  /** A step changes no raw id's verdict. */
  lemma BannerStepKeepsVerdicts(st: BannerState, x: string, catalog: map<string, BannerEntry>, fetch: map<string, Bytes>, r: string)
    ensures BannerKept(BannerStep(st, x, catalog, fetch).files, r, catalog, fetch) == BannerKept(st.files, r, catalog, fetch)
  {
    if CachePath(BannerCid(r)) == CachePath(BannerCid(x)) {
      BannerCidPathInjective(r, x);
    }
  }

  lemma {:induction false} KeptBannerIdsSame(f: map<string, Bytes>, g: map<string, Bytes>, raws: seq<string>, catalog: map<string, BannerEntry>, fetch: map<string, Bytes>)
    requires forall r :: BannerKept(f, r, catalog, fetch) == BannerKept(g, r, catalog, fetch)
    ensures KeptBannerIds(f, raws, catalog, fetch) == KeptBannerIds(g, raws, catalog, fetch)
  {
    if raws != [] {
      KeptBannerIdsSame(f, g, raws[1..], catalog, fetch);
    }
  }

  /** The returned ids are `banner_` + the lower-cased raw ids that are in the
      catalog, have an icon, and are cached or fetched, in profile order. */
  lemma {:induction false} PrepareBannersIds(st: BannerState, raws: seq<string>, catalog: map<string, BannerEntry>, fetch: map<string, Bytes>)
    ensures PrepareBanners(st, raws, catalog, fetch).ids == st.ids + KeptBannerIds(st.files, raws, catalog, fetch)
    decreases |raws|
  {
    if raws != [] {
      var st1 := BannerStep(st, raws[0], catalog, fetch);
      PrepareBannersIds(st1, raws[1..], catalog, fetch);
      forall r ensures BannerKept(st1.files, r, catalog, fetch) == BannerKept(st.files, r, catalog, fetch) {
        BannerStepKeepsVerdicts(st, raws[0], catalog, fetch, r);
      }
      KeptBannerIdsSame(st1.files, st.files, raws[1..], catalog, fetch);
    }
  }

  /** Every raw id found in the catalog leaves a name-map entry for its
      cosmetic id, with the catalog's `devName` or `Banner <cid>`. */
  lemma {:induction false} PrepareBannersRecordsNames(st: BannerState, raws: seq<string>, catalog: map<string, BannerEntry>, fetch: map<string, Bytes>, i: nat)
    requires i < |raws| && Lower(raws[i]) in catalog
    ensures var names := PrepareBanners(st, raws, catalog, fetch).names;
      BannerCid(raws[i]) in names
      && names[BannerCid(raws[i])] == BannerDisplayName(BannerCid(raws[i]), catalog[Lower(raws[i])])
    decreases |raws|
  {
    var st1 := BannerStep(st, raws[0], catalog, fetch);
    if i > 0 {
      PrepareBannersRecordsNames(st1, raws[1..], catalog, fetch, i - 1);
    } else {
      forall r | Lower(r) in catalog && BannerCid(r) == BannerCid(raws[0])
        ensures Lower(r) == Lower(raws[0])
      {
        assert Lower(r) == BannerCid(r)[7..];
      }
      PrepareBannersKeepsName(st1, raws[1..], catalog, fetch, BannerCid(raws[0]), BannerDisplayName(BannerCid(raws[0]), catalog[Lower(raws[0])]));
    }
  }

  /** A name recorded for a raw id is never replaced by a different one. */
  lemma {:induction false} PrepareBannersKeepsName(st: BannerState, raws: seq<string>, catalog: map<string, BannerEntry>, fetch: map<string, Bytes>, cid: string, name: string)
    requires cid in st.names && st.names[cid] == name
    requires forall r :: Lower(r) in catalog && BannerCid(r) == cid ==> BannerDisplayName(cid, catalog[Lower(r)]) == name
    ensures var names := PrepareBanners(st, raws, catalog, fetch).names;
      cid in names && names[cid] == name
    decreases |raws|
  {
    if raws != [] {
      PrepareBannersKeepsName(BannerStep(st, raws[0], catalog, fetch), raws[1..], catalog, fetch, cid, name);
    }
  }

  /** Raw ids absent from the catalog leave no name-map entry: a key the map
      did not hold and that no catalogued raw id gives stays absent. */
  lemma {:induction false} PrepareBannersOnlyCatalogNames(st: BannerState, raws: seq<string>, catalog: map<string, BannerEntry>, fetch: map<string, Bytes>, k: string)
    requires k !in st.names
    requires forall i :: 0 <= i < |raws| && Lower(raws[i]) in catalog ==> BannerCid(raws[i]) != k
    ensures k !in PrepareBanners(st, raws, catalog, fetch).names
    decreases |raws|
  {
    if raws != [] {
      PrepareBannersOnlyCatalogNames(BannerStep(st, raws[0], catalog, fetch), raws[1..], catalog, fetch, k);
    }
  }

  lemma {:induction false} KeptBannerIdsFrom(f: map<string, Bytes>, raws: seq<string>, catalog: map<string, BannerEntry>, fetch: map<string, Bytes>, x: string)
    requires x in KeptBannerIds(f, raws, catalog, fetch)
    ensures exists i :: 0 <= i < |raws| && Lower(raws[i]) in catalog && BannerCid(raws[i]) == x
  {
    if !(BannerKept(f, raws[0], catalog, fetch) && x == BannerCid(raws[0])) {
      KeptBannerIdsFrom(f, raws[1..], catalog, fetch, x);
      var i :| 0 <= i < |raws[1..]| && Lower(raws[1..][i]) in catalog && BannerCid(raws[1..][i]) == x;
      assert raws[i + 1] == raws[1..][i];
    }
  }

  /** Every id the routine returns has an entry in the banner name map. */
  lemma ReturnedBannersAreNamed(files: map<string, Bytes>, names: map<string, string>, raws: seq<string>,
                                catalog: map<string, BannerEntry>, fetch: map<string, Bytes>, x: string)
    requires x in PrepareBanners(BannerState(files, names, []), raws, catalog, fetch).ids
    ensures x in PrepareBanners(BannerState(files, names, []), raws, catalog, fetch).names
  {
    PrepareBannersIds(BannerState(files, names, []), raws, catalog, fetch);
    KeptBannerIdsFrom(files, raws, catalog, fetch, x);
    var i :| 0 <= i < |raws| && Lower(raws[i]) in catalog && BannerCid(raws[i]) == x;
    PrepareBannersRecordsNames(BannerState(files, names, []), raws, catalog, fetch, i);
  }
}
