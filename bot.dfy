/** The state the Discord front end (bot.py) keeps: the inventory buckets
    built from a profile, the id list each panel button shows, and the
    per-user session cache with its generated image paths. Discord, the
    login flow and the account panel text are not modelled: the panel text
    is an input string, and a reply is a tag saying what would be shown. */
module Bot {
  import opened Base
  import opened Config
  import opened FortniteApi
  import opened ImageUtils

  /** The `items` dict of a session: category name to cosmetic ids. */
  type Items = map<string, seq<string>>

  /** `items.get(k, [])`. */
  function Get(items: Items, k: string): seq<string> {
    if k in items then items[k] else []
  }

  // -------------------------------------------------------------- bucketing

  const LoadingScreenToken: string := "loadingscreen_character_lineup"

  /** `tid.split(":")[1]` for a template id the id pattern accepts. */
  function CosmeticIdOf(tid: string): string
    requires MatchesIdPattern(tid)
  {
    IdPatternHasTwoFields(tid);
    Split(tid, ':')[1]
  }

  /** The stored id is the text between the first colon of the template id
      and the next colon (or the end). */
  lemma CosmeticIdBetweenColons(tid: string)
    requires MatchesIdPattern(tid)
    ensures var rest := tid[IndexOfChar(tid, ':') + 1..]; var id := CosmeticIdOf(tid);
      IndexOfChar(tid, ':') < |tid| && id <= rest && ':' !in id && (|id| == |rest| || rest[|id|] == ':')
  {
    IdPatternHasTwoFields(tid);
    SplitNone(tid, ':');
    SecondField(tid, ':');
  }

  /** What one profile item contributes: its bucket and id, or nothing. The
      template id is `item_data.get("templateId", "")`, lower-cased. */
  function Bucketed(item: ProfileItem): Option<(string, string)> {
    var tid := Lower(OrElse(item.templateId, ""));
    if Contains(tid, LoadingScreenToken) then None
    else if MatchesIdPattern(tid) then Some((CategoryName(GetCosmeticType(tid)), CosmeticIdOf(tid)))
    else None
  }

  /** What each profile item contributes, in profile order. */
  function Contributions(profile: seq<ProfileItem>): seq<Option<(string, string)>> {
    seq(|profile|, i requires 0 <= i < |profile| => Bucketed(profile[i]))
  }

  /** `items.setdefault(key, []).append(id)` for one contribution. */
  function Step(items: Items, c: Option<(string, string)>): Items {
    match c
    case Some((key, id)) => items[key := Get(items, key) + [id]]
    case None => items
  }

  /** The parsing loop of `fetch_user_data`, one contribution at a time. */
  function Bucket(items: Items, cs: seq<Option<(string, string)>>): Items
    decreases |cs|
  {
    if cs == [] then items else Bucket(Step(items, cs[0]), cs[1..])
  }

  /** What one contribution adds to bucket `k`. */
  function IdsOf(c: Option<(string, string)>, k: string): seq<string> {
    match c
    case Some((key, id)) => if key == k then [id] else []
    case None => []
  }

  /** The ids of category `k`, in order: an independent, per-bucket
      description of what the loop builds. */
  function IdsIn(cs: seq<Option<(string, string)>>, k: string): seq<string> {
    if cs == [] then [] else IdsOf(cs[0], k) + IdsIn(cs[1..], k)
  }

  /** Banner ids extend the Banners bucket, and only when there are some. */
  function WithBanners(items: Items, bannerIds: seq<string>): Items {
    if bannerIds != [] then items["Banners" := Get(items, "Banners") + bannerIds] else items
  }

  /** The `items` dict `fetch_user_data` returns. */
  function Inventory(profile: seq<ProfileItem>, bannerIds: seq<string>): Items {
    WithBanners(Bucket(map[], Contributions(profile)), bannerIds)
  }

  /** Lines 189-201 of `fetch_user_data`: bucket the athena profile's items,
      then add the prepared banner ids. */
  method ParseInventory(profile: seq<ProfileItem>, bannerIds: seq<string>) returns (items: Items)
    ensures items == Inventory(profile, bannerIds)
  {
    ghost var cs := Contributions(profile);
    items := map[];
    var i := 0;
    while i < |profile|
      invariant 0 <= i <= |profile|
      invariant Bucket(items, cs[i..]) == Bucket(map[], cs)
    {
      var tid := Lower(OrElse(profile[i].templateId, ""));
      ghost var next := Step(items, cs[i]);
      assert Bucket(items, cs[i..]) == Bucket(next, cs[i + 1..]) by {
        assert cs[i..][0] == cs[i] && cs[i..][1..] == cs[i + 1..];
      }
      assert cs[i] == Bucketed(profile[i]);
      i := i + 1;
      if Contains(tid, LoadingScreenToken) {
        assert next == items;
        continue;
      }
      if MatchesIdPattern(tid) {
        var cosmeticId := CosmeticIdOf(tid);
        var ctype := CategoryName(GetCosmeticType(tid));
        items := items[ctype := Get(items, ctype) + [cosmeticId]];
      }
      assert items == next;
    }
    if bannerIds != [] {
      items := items["Banners" := Get(items, "Banners") + bannerIds];
    }
  }

  lemma StepGet(items: Items, c: Option<(string, string)>, k: string)
    ensures Get(Step(items, c), k) == Get(items, k) + IdsOf(c, k)
  {
  }

  /** Each bucket gains exactly the ids of its category, in order, after
      what it already held. */
  lemma {:induction false} BucketGet(items: Items, cs: seq<Option<(string, string)>>, k: string)
    ensures Get(Bucket(items, cs), k) == Get(items, k) + IdsIn(cs, k)
    decreases |cs|
  {
    if cs != [] {
      var next := Step(items, cs[0]);
      var a, b, c := Get(items, k), IdsOf(cs[0], k), IdsIn(cs[1..], k);
      assert Get(Bucket(items, cs), k) == Get(Bucket(next, cs[1..]), k);
      BucketGet(next, cs[1..], k);
      StepGet(items, cs[0], k);
      assert IdsIn(cs, k) == b + c;
      assert (a + b) + c == a + (b + c);
    }
  }

  /** The loop only creates buckets named by some contribution. */
  lemma {:induction false} BucketKeys(items: Items, cs: seq<Option<(string, string)>>, k: string)
    requires k in Bucket(items, cs) && k !in items
    ensures exists i :: 0 <= i < |cs| && cs[i].Some? && cs[i].value.0 == k
    decreases |cs|
  {
    if cs != [] {
      var next := Step(items, cs[0]);
      if k in next {
        assert cs[0].Some? && cs[0].value.0 == k;
      } else {
        BucketKeys(next, cs[1..], k);
        var i :| 0 <= i < |cs[1..]| && cs[1..][i].Some? && cs[1..][i].value.0 == k;
        assert cs[i + 1] == cs[1..][i];
      }
    }
  }

  /** A stored id comes from a contribution naming that bucket and id. */
  lemma {:induction false} IdsInFrom(cs: seq<Option<(string, string)>>, k: string, x: string)
    requires x in IdsIn(cs, k)
    ensures exists i :: 0 <= i < |cs| && cs[i] == Some((k, x))
  {
    if cs != [] {
      if x in IdsIn(cs[1..], k) {
        IdsInFrom(cs[1..], k, x);
        var i :| 0 <= i < |cs[1..]| && cs[1..][i] == Some((k, x));
        assert cs[i + 1] == Some((k, x));
      } else {
        assert cs[0] == Some((k, x));
      }
    }
  }

  /** An item is bucketed exactly when its lower-cased template id avoids the
      loading-screen token and matches the id pattern; its bucket is the
      category name of that template id. */
  lemma BucketedExactly(item: ProfileItem)
    ensures var tid := Lower(OrElse(item.templateId, ""));
      (Bucketed(item).Some? <==> !Contains(tid, LoadingScreenToken) && MatchesIdPattern(tid))
      && (Bucketed(item).Some? ==> ParseCategory(Bucketed(item).value.0) == Some(GetCosmeticType(tid)))
  {
    var tid := Lower(OrElse(item.templateId, ""));
    CategoryNameRoundTrip(GetCosmeticType(tid));
  }

  /** The parsed inventory: every bucket holds its category's ids in profile
      order, with the banner ids after the Banners ones. */
  lemma InventoryContents(profile: seq<ProfileItem>, bannerIds: seq<string>, k: string)
    ensures Get(Inventory(profile, bannerIds), k)
         == IdsIn(Contributions(profile), k) + (if k == "Banners" then bannerIds else [])
  {
    var cs := Contributions(profile);
    var items := Bucket(map[], cs);
    assert Get(items, k) == IdsIn(cs, k) by {
      BucketGet(map[], cs, k);
      assert Get(map[], k) == [];
      assert [] + IdsIn(cs, k) == IdsIn(cs, k);
    }
    WithBannersExtends(items, bannerIds, k);
    if k != "Banners" {
      assert IdsIn(cs, k) + [] == IdsIn(cs, k);
    }
  }

  /** Every bucket of the inventory is named after a category, and every id
      in it comes from a profile item whose lower-cased template id avoids
      the loading-screen token, matches the id pattern and classifies into
      that bucket. */
  lemma InventoryOrigins(profile: seq<ProfileItem>, k: string, x: string)
    ensures k in Bucket(map[], Contributions(profile)) ==> ParseCategory(k).Some?
    ensures x in Get(Bucket(map[], Contributions(profile)), k) ==>
      exists i :: 0 <= i < |profile| && Bucketed(profile[i]) == Some((k, x))
  {
    var cs := Contributions(profile);
    if k in Bucket(map[], cs) {
      BucketKeys(map[], cs, k);
      var i :| 0 <= i < |cs| && cs[i].Some? && cs[i].value.0 == k;
      BucketedExactly(profile[i]);
    }
    if x in Get(Bucket(map[], cs), k) {
      BucketGet(map[], cs, k);
      IdsInFrom(cs, k, x);
    }
  }

  /** Banner ids go after the existing Banners ids; no other bucket changes,
      and without banner ids nothing changes at all. */
  lemma WithBannersExtends(items: Items, bannerIds: seq<string>, k: string)
    ensures Get(WithBanners(items, bannerIds), "Banners") == Get(items, "Banners") + bannerIds
    ensures k != "Banners" ==> Get(WithBanners(items, bannerIds), k) == Get(items, k)
    ensures bannerIds == [] ==> WithBanners(items, bannerIds) == items
  {
  }

  // ------------------------------------------------------------ id lists

  /** The groups "All Cosmetics" concatenates, and the order passed to the sort. */
  const ItemOrder: seq<string> := ["Skins", "Back Blings", "Pickaxes", "Emotes", "Gliders", "Banners"]

  const AllCosmetics: string := "All Cosmetics"

  /** The buckets of `groups`, one after the other. */
  function Concat(items: Items, groups: seq<string>): seq<string> {
    if groups == [] then [] else Get(items, groups[0]) + Concat(items, groups[1..])
  }

  /** The ids a category button shows: one bucket, or for "All Cosmetics"
      the Skins, Back Blings, Pickaxes, Emotes, Gliders and Banners buckets
      one after the other. */
  function IdsToShow(category: string, items: Items): seq<string> {
    if category == AllCosmetics then
      Get(items, "Skins") + (Get(items, "Back Blings") + (Get(items, "Pickaxes")
        + (Get(items, "Emotes") + (Get(items, "Gliders") + Get(items, "Banners")))))
    else Get(items, category)
  }

  /** The `ids_to_show` block of `pre_generate_category` and `on_interaction`. */
  method CollectIds(category: string, items: Items) returns (ids: seq<string>)
    ensures ids == IdsToShow(category, items)
  {
    if category == AllCosmetics {
      ids := ConcatGroups(items, ItemOrder);
      AllCosmeticsOrder(items);
    } else {
      ids := Get(items, category);
    }
  }

  /** The `extend` loop over the groups of "All Cosmetics". */
  method ConcatGroups(items: Items, groups: seq<string>) returns (ids: seq<string>)
    ensures ids == Concat(items, groups)
  {
    ids := [];
    var i := 0;
    while i < |groups|
      invariant 0 <= i <= |groups|
      invariant ids + Concat(items, groups[i..]) == Concat(items, groups)
    {
      ConcatStep(items, groups, i, ids);
      ids := ids + Get(items, groups[i]);
      i := i + 1;
    }
    assert ids + [] == ids;
  }

  lemma ConcatStep(items: Items, groups: seq<string>, i: nat, done: seq<string>)
    requires i < |groups|
    ensures done + Concat(items, groups[i..]) == (done + Get(items, groups[i])) + Concat(items, groups[i + 1..])
  {
    assert groups[i..][1..] == groups[i + 1..];
  }

  /** `Concat` over a list of six group names. */
  lemma ConcatSix(items: Items, g0: string, g1: string, g2: string, g3: string, g4: string, g5: string)
    ensures Concat(items, [g0, g1, g2, g3, g4, g5])
         == Get(items, g0) + (Get(items, g1) + (Get(items, g2) + (Get(items, g3) + (Get(items, g4) + Get(items, g5)))))
  {
    assert Concat(items, [g5]) == Get(items, g5) by {
      assert [g5][1..] == [];
      assert Get(items, g5) + [] == Get(items, g5);
    }
    assert Concat(items, [g4, g5]) == Get(items, g4) + Get(items, g5) by {
      assert [g4, g5][1..] == [g5];
    }
    assert Concat(items, [g3, g4, g5]) == Get(items, g3) + Concat(items, [g4, g5]) by {
      assert [g3, g4, g5][1..] == [g4, g5];
    }
    assert Concat(items, [g2, g3, g4, g5]) == Get(items, g2) + Concat(items, [g3, g4, g5]) by {
      assert [g2, g3, g4, g5][1..] == [g3, g4, g5];
    }
    assert Concat(items, [g1, g2, g3, g4, g5]) == Get(items, g1) + Concat(items, [g2, g3, g4, g5]) by {
      assert [g1, g2, g3, g4, g5][1..] == [g2, g3, g4, g5];
    }
    assert [g0, g1, g2, g3, g4, g5][1..] == [g1, g2, g3, g4, g5];
  }

  /** "All Cosmetics" is the buckets of `ItemOrder`, in that order. */
  lemma AllCosmeticsOrder(items: Items)
    ensures IdsToShow(AllCosmetics, items) == Concat(items, ItemOrder)
  {
    ConcatSix(items, "Skins", "Back Blings", "Pickaxes", "Emotes", "Gliders", "Banners");
  }

  /** Only the six listed buckets matter: Wraps, Sprays, Others and any
      other key never reach "All Cosmetics". */
  lemma {:induction false} ConcatOnlyListed(a: Items, b: Items, groups: seq<string>)
    requires forall g :: g in groups ==> Get(a, g) == Get(b, g)
    ensures Concat(a, groups) == Concat(b, groups)
  {
    if groups != [] {
      assert groups[0] in groups;
      ConcatOnlyListed(a, b, groups[1..]);
    }
  }

  lemma AllCosmeticsIgnoresOtherBuckets(items: Items, k: string, ids: seq<string>)
    requires k !in ItemOrder
    ensures IdsToShow(AllCosmetics, items[k := ids]) == IdsToShow(AllCosmetics, items)
  {
    AllCosmeticsOrder(items);
    AllCosmeticsOrder(items[k := ids]);
    ConcatOnlyListed(items[k := ids], items, ItemOrder);
  }

  // ----------------------------------------------------------- the buttons

  const InfoButton: string := "btn_account_info"
  const ExitButton: string := "btn_exit_session"
  const LoginButton: string := "fd57fbb23dcc4db1ffa4e3db7580d965"

  /** `CATEGORY_MAP`: the category button ids and the group each shows. */
  const CategoryMap: map<string, string> := map[
    "btn_skins" := "Skins",
    "btn_pickaxes" := "Pickaxes",
    "btn_backblings" := "Back Blings",
    "btn_gliders" := "Gliders",
    "btn_emotes" := "Emotes",
    "btn_banners" := "Banners",
    "btn_all_cosmetics" := AllCosmetics
  ]

  /** Every category button shows one of the six groups or all of them, no
      two show the same, and the other buttons are not category buttons. */
  lemma CategoryButtons()
    ensures forall b :: b in CategoryMap ==> CategoryMap[b] in ItemOrder || CategoryMap[b] == AllCosmetics
    ensures InfoButton !in CategoryMap && ExitButton !in CategoryMap && LoginButton !in CategoryMap
    ensures forall b, c :: b in CategoryMap && c in CategoryMap && CategoryMap[b] == CategoryMap[c] ==> b == c
  {
    ButtonShowingInverts();
  }

  /** The group a category button shows gives the button back. */
  lemma ButtonShowingInverts()
    ensures forall b :: b in CategoryMap ==> ButtonShowing(CategoryMap[b]) == b
  {
  }

  /** The category button that shows a group. */
  function ButtonShowing(group: string): string {
    if group == "Skins" then "btn_skins"
    else if group == "Pickaxes" then "btn_pickaxes"
    else if group == "Back Blings" then "btn_backblings"
    else if group == "Gliders" then "btn_gliders"
    else if group == "Emotes" then "btn_emotes"
    else if group == "Banners" then "btn_banners"
    else "btn_all_cosmetics"
  }

  // -------------------------------------------------------- output paths

  /** Where `pre_generate_category` and `on_interaction` write, as written:
      one `output` directory shared by every user. */
  const SharedOutputDir: string := "output"

  /** A directory of the user's own. */
  function OutputDirFor(uid: nat): string {
    "output/" + NatToString(uid)
  }

  /** The directory layout the session cache draws into: the shared one of
      the source, or one directory per user. */
  datatype Layout = Shared | PerUser

  function DirFor(layout: Layout, uid: nat): string {
    match layout
    case Shared => SharedOutputDir
    case PerUser => OutputDirFor(uid)
  }

  /** With the shared directory two users' images of a group have the same
      path: the second render overwrites the first user's image. */
  lemma SharedOutputPathsCollide(u1: nat, u2: nat, group: string)
    ensures OutputPath(DirFor(Shared, u1), group) == OutputPath(DirFor(Shared, u2), group)
  {
  }

  /** With per-user directories two users never share an image path,
      whatever the groups. */
  lemma OutputPathsPerUser(u1: nat, u2: nat, g1: string, g2: string)
    requires OutputPath(DirFor(PerUser, u1), g1) == OutputPath(DirFor(PerUser, u2), g2)
    ensures u1 == u2
  {
    UserOfPath(u1, g1);
    UserOfPath(u2, g2);
    NatToStringInjective(u1, u2);
  }

  /** The second `/`-separated field of a per-user path is the user's number. */
  lemma UserOfPath(u: nat, g: string)
    ensures |Split(OutputPath(OutputDirFor(u), g), '/')| >= 2
    ensures Split(OutputPath(OutputDirFor(u), g), '/')[1] == NatToString(u)
  {
    var n := NatToString(u);
    var name := Lower(ReplaceSpaces(g));
    var tail := name + ".png";
    assert OutputPath(OutputDirFor(u), g) == "output/" + (n + "/" + tail) by {
      Regroup("output/", n, name, ".png");
    }
    NoSlashInNumber(u);
    SlashField("output/", n, tail);
  }

  lemma Regroup(a: string, n: string, b: string, e: string)
    ensures a + n + "/" + b + e == a + (n + "/" + (b + e))
  {
  }

  lemma NoSlashInNumber(u: nat)
    ensures '/' !in NatToString(u)
  {
    var n := NatToString(u);
    forall i | 0 <= i < |n| ensures n[i] != '/' {
      assert '0' <= n[i] <= '9';
    }
  }

  /** `(pre + n + "/" + tail).split("/")[1] == n` when `pre` ends in its only slash. */
  lemma SlashField(pre: string, n: string, tail: string)
    requires |pre| >= 1 && pre[|pre| - 1] == '/' && '/' !in pre[..|pre| - 1] && '/' !in n
    ensures |Split(pre + (n + "/" + tail), '/')| >= 2
    ensures Split(pre + (n + "/" + tail), '/')[1] == n
  {
    var t := pre + (n + "/" + tail);
    assert t[|pre|..] == n + "/" + tail;
    SplitAfterPrefix(t, pre, '/');
    var m := n + "/";
    assert m[..|m| - 1] == n;
    SplitAfterPrefix(n + "/" + tail, m, '/');
  }

  // ------------------------------------------------------------ sessions

  /** A `USER_CACHE` entry: the account panel text, the display name, the
      buckets, and the image path generated for each category so far. */
  datatype Session = Session(info: string, username: string, items: Items, imagePaths: map<string, string>)

  /** The files left after an exit deletes a session's images. */
  function ExitFiles(files: map<string, Bytes>, s: Session): (r: map<string, Bytes>)
    ensures forall p :: p in r <==> p in files && p !in s.imagePaths.Values
    ensures forall p :: p in r ==> r[p] == files[p]
  {
    files - s.imagePaths.Values
  }

  /** Every stored path is the output file of its user and category under
      the layout. */
  ghost predicate StoredPaths(sessions: map<nat, Session>, layout: Layout) {
    forall u, g :: u in sessions && g in sessions[u].imagePaths ==>
      sessions[u].imagePaths[g] == OutputPath(DirFor(layout, u), g)
  }

  /** As written: two sessions that drew the same group point at the same
      file, so one user's exit deletes the image the other's session still
      names. */
  lemma SharedExitDeletesOthersImage(files: map<string, Bytes>, sessions: map<nat, Session>, u1: nat, u2: nat, g: string)
    requires StoredPaths(sessions, Shared)
    requires u1 in sessions && u2 in sessions && g in sessions[u1].imagePaths && g in sessions[u2].imagePaths
    ensures sessions[u1].imagePaths[g] == sessions[u2].imagePaths[g]
    ensures sessions[u2].imagePaths[g] !in ExitFiles(files, sessions[u1])
  {
    assert sessions[u1].imagePaths[g] in sessions[u1].imagePaths.Values;
  }

  /** Storing a user's own output path for a category keeps the layout's
      invariant. */
  lemma StoredPathsStore(sessions: map<nat, Session>, layout: Layout, uid: nat, category: string)
    requires StoredPaths(sessions, layout) && uid in sessions
    ensures var s := sessions[uid];
      StoredPaths(sessions[uid := s.(imagePaths := s.imagePaths[category := OutputPath(DirFor(layout, uid), category)])], layout)
  {
  }

  /** With per-user paths, an exit leaves every other user's images alone. */
  lemma ExitSparesOtherUsers(files: map<string, Bytes>, sessions: map<nat, Session>, u1: nat, u2: nat, g: string)
    requires StoredPaths(sessions, PerUser) && u1 in sessions && u2 in sessions && u1 != u2
    requires g in sessions[u2].imagePaths
    ensures var p := sessions[u2].imagePaths[g];
      (p in ExitFiles(files, sessions[u1]) <==> p in files)
      && (p in files ==> ExitFiles(files, sessions[u1])[p] == files[p])
  {
    var p := sessions[u2].imagePaths[g];
    if p in sessions[u1].imagePaths.Values {
      var g1 :| g1 in sessions[u1].imagePaths && sessions[u1].imagePaths[g1] == p;
      OutputPathsPerUser(u1, u2, g1, g);
    }
  }

  /** Forgetting a session keeps the layout's invariant. */
  lemma StoredPathsRemove(sessions: map<nat, Session>, layout: Layout, uid: nat)
    requires StoredPaths(sessions, layout)
    ensures StoredPaths(sessions - {uid}, layout)
  {
  }

  lemma RemoveOneMore(files: map<string, Bytes>, done: set<string>, p: string)
    ensures (files - done) - {p} == files - (done + {p})
    ensures p !in files - done ==> files - done == files - (done + {p})
  {
  }

  lemma RemoveTwice(m: map<nat, Session>, k: nat)
    ensures (m - {k}) - {k} == m - {k}
  {
  }

  lemma UpdateSame(m: map<nat, Session>, k: nat)
    requires k in m
    ensures m[k := m[k]] == m
  {
  }

  lemma UpdateTwice(m: map<nat, Session>, k: nat, v1: Session, v2: Session)
    ensures m[k := v1][k := v2] == m[k := v2]
  {
  }

  lemma UpdateThenRemove(m: map<nat, Session>, k: nat, v: Session)
    ensures m[k := v] - {k} == m - {k}
  {
  }

  // ------------------------------------------------------------- rendering

  /** The resolver's inputs with the current `banner_name_map`. */
  function Resolving(env: Env, names: map<string, string>): Env {
    env.(bannerNames := names)
  }

  /** A group's ids in the order they are drawn. */
  function ShownIds(ids: seq<string>, env: Env): seq<string> {
    SortIdsByRarity(ids, ItemOrder, env.catalog, env.bannerNames)
  }

  /** The banner ids `get_banners_from_common_core` returns: none when the
      profile query failed. */
  function ProfileBanners(commonCore: Option<seq<ProfileItem>>): seq<string> {
    if commonCore.None? then [] else BannerIds(commonCore.value)
  }

  /** Drawing the shown order permutes the ids. */
  lemma ShownIdsPermutes(ids: seq<string>, env: Env)
    ensures multiset(ShownIds(ids, env)) == multiset(ids)
  {
    SortPermutes(ids, id => IdKey(id, ItemOrder, env.catalog, env.bannerNames));
  }

  /** Some tile is drawn exactly when some id resolves to a known name. */
  lemma DrawnIffVisibleId(ids: seq<string>, env: Env)
    ensures VisibleInfos(Infos(ids, env)) != [] <==>
      exists i :: 0 <= i < |ids| && Visible(GetCosmeticInfo(ids[i], env.catalog, env.bannerNames))
  {
    VisibleInfosEmpty(Infos(ids, env));
    if i :| 0 <= i < |ids| && Visible(GetCosmeticInfo(ids[i], env.catalog, env.bannerNames)) {
      assert Visible(Infos(ids, env)[i]);
    }
  }

  lemma VisibleIdMoves(a: seq<string>, b: seq<string>, i: nat, env: Env)
    requires multiset(a) == multiset(b)
    requires i < |a| && Visible(GetCosmeticInfo(a[i], env.catalog, env.bannerNames))
    ensures exists j :: 0 <= j < |b| && Visible(GetCosmeticInfo(b[j], env.catalog, env.bannerNames))
  {
    assert a[i] in multiset(b);
    var j :| 0 <= j < |b| && b[j] == a[i];
  }

  /** Sorting does not change whether an image is made: one is made exactly
      when some id resolves to a known name. */
  lemma ShownIdsDraw(ids: seq<string>, env: Env)
    ensures VisibleInfos(Infos(ShownIds(ids, env), env)) != [] <==>
      exists i :: 0 <= i < |ids| && Visible(GetCosmeticInfo(ids[i], env.catalog, env.bannerNames))
  {
    var r := ShownIds(ids, env);
    ShownIdsPermutes(ids, env);
    DrawnIffVisibleId(r, env);
    if i :| 0 <= i < |ids| && Visible(GetCosmeticInfo(ids[i], env.catalog, env.bannerNames)) {
      VisibleIdMoves(ids, r, i, env);
    }
    if j :| 0 <= j < |r| && Visible(GetCosmeticInfo(r[j], env.catalog, env.bannerNames)) {
      VisibleIdMoves(r, ids, j, env);
    }
  }

  /** What a button press shows. */
  datatype Reply =
    | Ignored
    | LoginStarted
    | Exited
    | SessionExpired
    | InfoPanel(text: string)
    | Attached(category: string, path: string)
    | NoItems(category: string)
    | Failed

  /** What a category button does for a user with a session, drawing into
      `dir` with the resolver inputs `live`: a stored path is attached and
      nothing changes; a category without ids answers "no items" and nothing
      changes; otherwise the sorted ids are drawn, the answer is a failure
      exactly when no image was made (the sessions unchanged), and otherwise
      the new image is attached and its path stored in the user's session.
      Other users' sessions never change. */
  ghost predicate ShowsCategory(uid: nat, category: string, dir: string, live: Env,
                                before: map<nat, Session>, after: map<nat, Session>,
                                filesBefore: map<string, Bytes>, filesAfter: map<string, Bytes>,
                                reply: Reply, canvas: Canvas) {
    uid in before && uid in after && after == before[uid := after[uid]]
    && var s := before[uid];
    var ids := ShownIds(IdsToShow(category, s.items), live);
    (category in s.imagePaths ==>
       reply == Attached(category, s.imagePaths[category]) && after == before && filesAfter == filesBefore)
    && (category !in s.imagePaths && IdsToShow(category, s.items) == [] ==>
          reply == NoItems(category) && after == before && filesAfter == filesBefore)
    && (category !in s.imagePaths && IdsToShow(category, s.items) != [] ==>
          filesAfter == CheckerFiles(filesBefore, ids, category, dir, live, canvas)
          && (reply == Failed <==> VisibleInfos(Infos(ids, live)) == [])
          && (reply == Failed ==> after == before)
          && (reply != Failed ==>
                reply == Attached(category, OutputPath(dir, category))
                && after == before[uid := s.(imagePaths := s.imagePaths[category := reply.path])]))
  }

  /** A category press changes no other user's session. */
  lemma ShowsCategoryKeepsOthers(uid: nat, category: string, dir: string, live: Env,
                                 before: map<nat, Session>, after: map<nat, Session>,
                                 filesBefore: map<string, Bytes>, filesAfter: map<string, Bytes>,
                                 reply: Reply, canvas: Canvas)
    requires ShowsCategory(uid, category, dir, live, before, after, filesBefore, filesAfter, reply, canvas)
    ensures after - {uid} == before - {uid}
  {
    UpdateThenRemove(before, uid, after[uid]);
  }

  /** `USER_CACHE`, keyed by Discord user id; `layout` says where its images go. */
  class UserCache {
    const layout: Layout
    var sessions: map<nat, Session>

    constructor (layout: Layout)
      ensures this.layout == layout && sessions == map[]
    {
      this.layout := layout;
      sessions := map[];
    }

    ghost predicate Valid()
      reads this
    {
      StoredPaths(sessions, layout)
    }

    /** `sort_ids_by_rarity` and then `create_checker_image` into `dir`. */
    static method Render(disk: Disk, dir: string, category: string, ids: seq<string>, username: string, env: Env)
      returns (path: Option<string>, canvas: Canvas)
      modifies disk
      ensures path.Some? <==> VisibleInfos(Infos(ShownIds(ids, env), env)) != []
      ensures path.Some? ==>
        path.value == OutputPath(dir, category)
        && Depicts(canvas, VisibleInfos(Infos(ShownIds(ids, env), env)),
                   DownloadAll(old(disk.files), ShownIds(ids, env), env.fetch, env.placeholder), username, env)
      ensures disk.files == CheckerFiles(old(disk.files), ShownIds(ids, env), category, dir, env, canvas)
    {
      var sortedIds := SortIdsByRarity(ids, ItemOrder, env.catalog, env.bannerNames);
      path, canvas := CreateCheckerImage(disk, sortedIds, username, category, dir, env);
    }

    /** Draw a category's ids for a user into the layout's directory and,
        when an image was made, remember its path in the session. */
    method DrawAndStore(disk: Disk, uid: nat, category: string, ids: seq<string>, env: Env)
      returns (path: Option<string>, canvas: Canvas)
      requires Valid() && uid in sessions
      modifies this, disk
      ensures Valid()
      ensures path.Some? <==> VisibleInfos(Infos(ShownIds(ids, env), env)) != []
      ensures disk.files == CheckerFiles(old(disk.files), ShownIds(ids, env), category, DirFor(layout, uid), env, canvas)
      ensures path.None? ==> sessions == old(sessions)
      ensures path.Some? ==>
        var s := old(sessions)[uid];
        path.value == OutputPath(DirFor(layout, uid), category)
        && Depicts(canvas, VisibleInfos(Infos(ShownIds(ids, env), env)),
                   DownloadAll(old(disk.files), ShownIds(ids, env), env.fetch, env.placeholder), s.username, env)
        && sessions == old(sessions)[uid := s.(imagePaths := s.imagePaths[category := path.value])]
    {
      var s := sessions[uid];
      path, canvas := Render(disk, DirFor(layout, uid), category, ids, s.username, env);
      if path.Some? {
        StoredPathsStore(sessions, layout, uid, category);
        sessions := sessions[uid := s.(imagePaths := s.imagePaths[category := path.value])];
      }
    }

    /** `pre_generate_category`: draw a category in advance unless the user
        is gone, the category is already drawn, or it has no ids; store the
        path only when an image was made. Names resolve through the current
        banner name map. */
    method PreGenerateCategory(disk: Disk, names: BannerNameMap, uid: nat, category: string, env: Env)
      returns (ghost canvas: Canvas)
      requires Valid()
      modifies this, disk
      ensures Valid()
      ensures uid !in old(sessions) ==> sessions == old(sessions) && disk.files == old(disk.files)
      ensures uid in old(sessions) && category in old(sessions)[uid].imagePaths ==>
        sessions == old(sessions) && disk.files == old(disk.files)
      ensures uid in old(sessions) && category !in old(sessions)[uid].imagePaths ==>
        var s := old(sessions)[uid];
        var live := Resolving(env, names.entries);
        var ids := ShownIds(IdsToShow(category, s.items), live);
        disk.files == CheckerFiles(old(disk.files), ids, category, DirFor(layout, uid), live, canvas)
        && sessions == if VisibleInfos(Infos(ids, live)) != [] then
             old(sessions)[uid := s.(imagePaths := s.imagePaths[category := OutputPath(DirFor(layout, uid), category)])]
           else old(sessions)
    {
      canvas := EmptyCanvas;
      if uid !in sessions {
        return;
      }
      var data := sessions[uid];
      if category in data.imagePaths {
        return;
      }
      var live := Resolving(env, names.entries);
      var idsToShow := CollectIds(category, data.items);
      if idsToShow == [] {
        assert ShownIds(idsToShow, live) == [];
        return;
      }
      var path, c := DrawAndStore(disk, uid, category, idsToShow, live);
      canvas := c;
    }

    /** `wait_for_login` after `fetch_user_data`: fill the banner cache and
        name map from the common_core profile, parse the athena profile,
        store a fresh session with no images, then draw the Skins in advance. */
    method Login(disk: Disk, names: BannerNameMap, uid: nat, info: string, username: string,
                 profile: seq<ProfileItem>, commonCore: Option<seq<ProfileItem>>,
                 bannerCatalog: map<string, BannerEntry>, env: Env)
      returns (ghost canvas: Canvas)
      requires Valid()
      modifies this, disk, names
      ensures Valid()
      ensures var st := PrepareBanners(BannerState(old(disk.files), old(names.entries), []),
                                       ProfileBanners(commonCore), bannerCatalog, env.fetch);
        var items := Inventory(profile, st.ids);
        var live := Resolving(env, st.names);
        var ids := ShownIds(IdsToShow("Skins", items), live);
        names.entries == st.names
        && disk.files == CheckerFiles(st.files, ids, "Skins", DirFor(layout, uid), live, canvas)
        && sessions == old(sessions)[uid := Session(info, username, items,
             if VisibleInfos(Infos(ids, live)) != [] then map["Skins" := OutputPath(DirFor(layout, uid), "Skins")]
             else map[])]
    {
      var raws := GetBannersFromCommonCore(commonCore);
      var bannerIds := DownloadAndPrepareBanners(disk, names, raws, bannerCatalog, env.fetch);
      var items := ParseInventory(profile, bannerIds);
      canvas := StartSession(disk, names, uid, info, username, items, env);
    }

    /** Store a fresh session with no images and draw its Skins in advance. */
    method StartSession(disk: Disk, names: BannerNameMap, uid: nat, info: string, username: string, items: Items, env: Env)
      returns (ghost canvas: Canvas)
      requires Valid()
      modifies this, disk
      ensures Valid()
      ensures var live := Resolving(env, names.entries);
        var ids := ShownIds(IdsToShow("Skins", items), live);
        disk.files == CheckerFiles(old(disk.files), ids, "Skins", DirFor(layout, uid), live, canvas)
        && sessions == old(sessions)[uid := Session(info, username, items,
             if VisibleInfos(Infos(ids, live)) != [] then map["Skins" := OutputPath(DirFor(layout, uid), "Skins")]
             else map[])]
    {
      ghost var before := sessions;
      var newSession := Session(info, username, items, map[]);
      sessions := sessions[uid := newSession];
      canvas := PreGenerateCategory(disk, names, uid, "Skins", env);
      ghost var path := OutputPath(DirFor(layout, uid), "Skins");
      assert newSession.imagePaths["Skins" := path] == map["Skins" := path];
      UpdateTwice(before, uid, newSession, newSession.(imagePaths := newSession.imagePaths["Skins" := path]));
    }

    /** Remove each existing file of `paths` from the disk. */
    static method DeleteFiles(disk: Disk, paths: set<string>)
      modifies disk
      ensures disk.files == old(disk.files) - paths
    {
      var remaining := paths;
      ghost var done: set<string> := {};
      while remaining != {}
        invariant remaining <= paths && done == paths - remaining
        invariant disk.files == old(disk.files) - done
        decreases |remaining|
      {
        var p :| p in remaining;
        RemoveOneMore(old(disk.files), done, p);
        if p in disk.files {
          disk.files := disk.files - {p};
        }
        remaining := remaining - {p};
        done := done + {p};
      }
      assert done == paths;
    }

    /** The exit button: delete every stored image of the user, then forget
        the session. */
    method Exit(disk: Disk, uid: nat)
      requires Valid()
      modifies this, disk
      ensures Valid()
      ensures uid in old(sessions) ==> disk.files == ExitFiles(old(disk.files), old(sessions)[uid])
      ensures uid !in old(sessions) ==> disk.files == old(disk.files)
      ensures sessions == old(sessions) - {uid}
    {
      if uid !in sessions {
        assert sessions - {uid} == sessions;
        return;
      }
      DeleteFiles(disk, sessions[uid].imagePaths.Values);
      StoredPathsRemove(sessions, layout, uid);
      sessions := sessions - {uid};
    }

    /** A category button: reuse the stored image, or collect, sort and draw
        the ids and store the path when an image was made. */
    method ShowCategory(disk: Disk, names: BannerNameMap, uid: nat, category: string, env: Env)
      returns (reply: Reply, ghost canvas: Canvas)
      requires Valid() && uid in sessions
      modifies this, disk
      ensures Valid()
      ensures ShowsCategory(uid, category, DirFor(layout, uid), Resolving(env, names.entries),
                            old(sessions), sessions, old(disk.files), disk.files, reply, canvas)
    {
      canvas := EmptyCanvas;
      UpdateSame(sessions, uid);
      var data := sessions[uid];
      if category in data.imagePaths {
        return Attached(category, data.imagePaths[category]), canvas;
      }
      var idsToShow := CollectIds(category, data.items);
      if idsToShow == [] {
        return NoItems(category), canvas;
      }
      reply, canvas := DrawAndReply(disk, uid, category, idsToShow, Resolving(env, names.entries));
    }

    /** Draw a category that has ids and answer with the image, or with the
        failure message when nothing could be drawn. */
    method DrawAndReply(disk: Disk, uid: nat, category: string, ids: seq<string>, env: Env)
      returns (reply: Reply, ghost canvas: Canvas)
      requires Valid() && uid in sessions
      modifies this, disk
      ensures Valid()
      ensures disk.files == CheckerFiles(old(disk.files), ShownIds(ids, env), category, DirFor(layout, uid), env, canvas)
      ensures reply == Failed <==> VisibleInfos(Infos(ShownIds(ids, env), env)) == []
      ensures reply == Failed ==> sessions == old(sessions)
      ensures reply != Failed ==>
        var s := old(sessions)[uid];
        reply == Attached(category, OutputPath(DirFor(layout, uid), category))
        && sessions == old(sessions)[uid := s.(imagePaths := s.imagePaths[category := reply.path])]
    {
      var path, c := DrawAndStore(disk, uid, category, ids, env);
      canvas := c;
      if path.Some? {
        reply := Attached(category, path.value);
      } else {
        reply := Failed;
      }
    }

    /** `on_interaction` for a component press. */
    method OnInteraction(disk: Disk, names: BannerNameMap, uid: nat, customId: string, env: Env)
      returns (reply: Reply, ghost canvas: Canvas)
      requires Valid()
      modifies this, disk
      ensures Valid()
      ensures customId == LoginButton ==>
        reply == LoginStarted && sessions == old(sessions) && disk.files == old(disk.files)
      ensures customId == ExitButton ==> reply == Exited && sessions == old(sessions) - {uid}
      ensures customId == ExitButton && uid in old(sessions) ==> disk.files == ExitFiles(old(disk.files), old(sessions)[uid])
      ensures customId == ExitButton && uid !in old(sessions) ==> disk.files == old(disk.files)
      ensures customId in CategoryMap || customId == InfoButton ==>
        (uid !in old(sessions) <==> reply == SessionExpired)
      ensures customId == InfoButton && uid in old(sessions) ==>
        reply == InfoPanel(old(sessions)[uid].info) && sessions == old(sessions) && disk.files == old(disk.files)
      ensures customId in CategoryMap && uid in old(sessions) ==>
        ShowsCategory(uid, CategoryMap[customId], DirFor(layout, uid), Resolving(env, names.entries),
                      old(sessions), sessions, old(disk.files), disk.files, reply, canvas)
      ensures customId != LoginButton && customId != ExitButton && customId != InfoButton && customId !in CategoryMap ==>
        reply == Ignored && sessions == old(sessions) && disk.files == old(disk.files)
      ensures sessions - {uid} == old(sessions) - {uid}
    {
      canvas := EmptyCanvas;
      CategoryButtons();
      if customId == LoginButton {
        reply := LoginStarted;
      } else if customId == ExitButton {
        ghost var before := sessions;
        Exit(disk, uid);
        reply := Exited;
        RemoveTwice(before, uid);
      } else if customId == InfoButton || customId in CategoryMap {
        if uid !in sessions {
          reply := SessionExpired;
        } else if customId == InfoButton {
          reply := InfoPanel(sessions[uid].info);
        } else {
          ghost var before, filesBefore := sessions, disk.files;
          reply, canvas := ShowCategory(disk, names, uid, CategoryMap[customId], env);
          ShowsCategoryKeepsOthers(uid, CategoryMap[customId], DirFor(layout, uid), Resolving(env, names.entries),
                                   before, sessions, filesBefore, disk.files, reply, canvas);
        }
      } else {
        reply := Ignored;
      }
    }
  }
}
