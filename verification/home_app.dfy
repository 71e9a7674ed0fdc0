/** An app on the home app grid: one of the built-in (embedded) apps, or a
    bot the user has added (external). Its identity, the lookup by id, and
    the category label and icon. The database and the localised strings
    are parameters. */
module HomeApps {
  import opened Common

  datatype EmbeddedApp = EmbeddedApp(id: string, name: string, categoryIcon: string)

  datatype App = App(category: string)

  datatype User = User(userId: string, appId: Option<string>, app: Option<App>)

  datatype HomeApp = Embedded(embedded: EmbeddedApp) | External(user: User)

  /** The lookups the id-based initialiser makes. */
  datatype Directory = Directory(
    embedded: seq<EmbeddedApp>,
    friendUserWithAppId: string -> Option<User>,
    appWithId: string -> Option<App>)

  /** `id`: an external app without an app id has the empty id. */
  function Id(a: HomeApp): (id: string)
    ensures a.Embedded? ==> id == a.embedded.id
    ensures a.External? && a.user.appId.Some? ==> id == a.user.appId.value
    ensures a.External? && a.user.appId.None? ==> id == ""
  {
    match a
    case Embedded(e) => e.id
    case External(u) => u.appId.GetOr("")
  }

  /** Two home apps are the same app exactly when their ids agree. */
  predicate SameApp(a: HomeApp, b: HomeApp) {
    Id(a) == Id(b)
  }

  lemma SameAppIsEquivalence(a: HomeApp, b: HomeApp, c: HomeApp)
    ensures SameApp(a, a)
    ensures SameApp(a, b) ==> SameApp(b, a)
    ensures SameApp(a, b) && SameApp(b, c) ==> SameApp(a, c)
  {
  }

  /** An embedded app and a bot sharing an id count as the same app. */
  lemma EmbeddedMatchesBotWithItsId(e: EmbeddedApp, u: User)
    requires u.appId == Some(e.id)
    ensures SameApp(Embedded(e), External(u))
  {
  }

  function FirstEmbedded(all: seq<EmbeddedApp>, id: string): (r: Option<EmbeddedApp>)
    ensures r.Some? ==> r.value.id == id && r.value in all
    ensures r.None? ==> forall i :: 0 <= i < |all| ==> all[i].id != id
    ensures r.Some? ==> exists i :: 0 <= i < |all| && all[i] == r.value && forall j :: 0 <= j < i ==> all[j].id != id
  {
    if all == [] then None
    else if all[0].id == id then Some(all[0])
    else
      var r := FirstEmbedded(all[1..], id);
      if r.Some? then
        var k :| 0 <= k < |all[1..]| && all[1..][k] == r.value && forall j :: 0 <= j < k ==> all[1..][j].id != id;
        assert all[k + 1] == r.value;
        r
      else r
  }

  /** `init?(id:)`: an embedded app wins; otherwise a friend bot with that
      app id, its app record attached; otherwise nothing. */
  function FromId(id: string, dir: Directory): (r: Option<HomeApp>)
    ensures FirstEmbedded(dir.embedded, id).Some? ==> r == Some(Embedded(FirstEmbedded(dir.embedded, id).value))
    ensures FirstEmbedded(dir.embedded, id).None? && dir.friendUserWithAppId(id).Some? ==>
      r == Some(External(dir.friendUserWithAppId(id).value.(app := dir.appWithId(id))))
    ensures r.None? <==> FirstEmbedded(dir.embedded, id).None? && dir.friendUserWithAppId(id).None?
  {
    match FirstEmbedded(dir.embedded, id)
    case Some(e) => Some(Embedded(e))
    case None =>
      match dir.friendUserWithAppId(id)
      case Some(u) => Some(External(u.(app := dir.appWithId(id))))
      case None => None
  }

  /** A directory whose bot lookup returns bots with the requested id. */
  ghost predicate ConsistentDirectory(dir: Directory) {
    forall id :: dir.friendUserWithAppId(id).Some? ==> dir.friendUserWithAppId(id).value.appId == Some(id)
  }

  /** Looking an app up by id finds an app with that id. */
  lemma FromIdFindsThatId(id: string, dir: Directory)
    requires ConsistentDirectory(dir)
    ensures FromId(id, dir).Some? ==> Id(FromId(id, dir).value) == id
  {
  }

  /** Looking up an embedded app's id gives that app back when the built-in
      ids are distinct. */
  lemma FromIdOfEmbedded(dir: Directory, i: nat)
    requires i < |dir.embedded|
    requires forall j, k :: 0 <= j < k < |dir.embedded| ==> dir.embedded[j].id != dir.embedded[k].id
    ensures FromId(dir.embedded[i].id, dir) == Some(Embedded(dir.embedded[i]))
  {
    FirstEmbeddedAt(dir.embedded, i);
  }

  lemma {:induction false} FirstEmbeddedAt(all: seq<EmbeddedApp>, i: nat)
    requires i < |all| && forall j :: 0 <= j < i ==> all[j].id != all[i].id
    ensures FirstEmbedded(all, all[i].id) == Some(all[i])
  {
    if i > 0 {
      FirstEmbeddedAt(all[1..], i - 1);
    }
  }

  /** The app categories a bot can declare, by raw value. */
  const KnownCategories: seq<string> := [
    "WALLET", "TRADING", "BUSINESS", "SOCIAL", "SHOPPING", "EDUCATION", "NEWS",
    "TOOLS", "GAMES", "BOOKS", "MUSIC", "PHOTO", "VIDEO"]

  /** The localised label keys and icon names for those categories. */
  const CategoryLabels: seq<string> := [
    "wallet", "trading", "business", "social", "shopping", "education", "news",
    "tools", "games", "books", "music", "photo", "video"]
  const CategoryIcons: seq<string> := [
    "ic_app_category_wallet", "ic_app_category_trading", "ic_app_category_business",
    "ic_app_category_social", "ic_app_category_shopping", "ic_app_category_education",
    "ic_app_category_news", "ic_app_category_tools", "ic_app_category_game",
    "ic_app_category_book", "ic_app_category_music", "ic_app_category_photo",
    "ic_app_category_video"]

  /** A bot's declared category; a bot without an app record is OTHER. */
  function RawCategory(u: User): string {
    match u.app
    case None => "OTHER"
    case Some(app) => app.category
  }

  function IndexOf(s: seq<string>, x: string): (r: Option<nat>)
    ensures r.Some? ==> r.value < |s| && s[r.value] == x
    ensures r.None? <==> x !in s
  {
    if s == [] then None
    else if s[0] == x then Some(0)
    else
      match IndexOf(s[1..], x)
      case None => None
      case Some(i) => Some(i + 1)
  }

  /** `category` for a bot, as a label key. */
  function ExternalCategory(u: User): (key: string)
    ensures RawCategory(u) !in KnownCategories ==> key == "other"
    ensures RawCategory(u) in KnownCategories ==> key in CategoryLabels && key != "other"
  {
    match IndexOf(KnownCategories, RawCategory(u))
    case None => "other"
    case Some(i) => CategoryLabels[i]
  }

  /** `categoryIcon` for a bot, as an image name. */
  function ExternalCategoryIcon(u: User): (icon: string)
    ensures RawCategory(u) !in KnownCategories ==> icon == "ic_app_category_other"
    ensures RawCategory(u) in KnownCategories ==> icon in CategoryIcons
  {
    match IndexOf(KnownCategories, RawCategory(u))
    case None => "ic_app_category_other"
    case Some(i) => CategoryIcons[i]
  }

  /** `category` for a built-in app: decided by its displayed name, which is
      compared with the localised names of the scanner, camera and wallet. */
  function EmbeddedCategory(e: EmbeddedApp, localize: string -> string): (key: string)
    ensures e.name == localize("scan_qr_code") ==> key == "tools"
    ensures e.name != localize("scan_qr_code") && e.name == localize("camera") ==> key == "camera"
    ensures e.name != localize("scan_qr_code") && e.name != localize("camera") && e.name == localize("wallet") ==> key == "wallet"
    ensures e.name !in {localize("scan_qr_code"), localize("camera"), localize("wallet")} ==> key == "other"
  {
    if e.name == localize("scan_qr_code") then "tools"
    else if e.name == localize("camera") then "camera"
    else if e.name == localize("wallet") then "wallet"
    else "other"
  }

  /** `category`: a label key, either one of the bot category labels, the
      camera's, or "other"; a bot is "other" exactly when its declared
      category is unknown. */
  function Category(a: HomeApp, localize: string -> string): (key: string)
    ensures key == "other" || key == "camera" || key in CategoryLabels
    ensures a.External? ==> (key == "other" <==> RawCategory(a.user) !in KnownCategories)
  {
    match a
    case Embedded(e) => EmbeddedCategory(e, localize)
    case External(u) => ExternalCategory(u)
  }

  /** `categoryIcon`: a built-in app carries its own; a bot's is one of the
      category icons, or the "other" icon exactly when its category is
      unknown. */
  function CategoryIcon(a: HomeApp): (icon: string)
    ensures a.Embedded? ==> icon == a.embedded.categoryIcon
    ensures a.External? ==> icon in CategoryIcons || icon == "ic_app_category_other"
    ensures a.External? ==> (icon == "ic_app_category_other" <==> RawCategory(a.user) !in KnownCategories)
  {
    match a
    case Embedded(e) => e.categoryIcon
    case External(u) => ExternalCategoryIcon(u)
  }

  /** A bot's label and icon always name the same category: the label's
      position in the label table is the icon's in the icon table, and an
      unknown category gets "other" for both. */
  lemma LabelAndIconAgree(u: User)
    ensures ExternalCategory(u) == "other" <==> ExternalCategoryIcon(u) == "ic_app_category_other"
    ensures RawCategory(u) in KnownCategories ==>
      exists i :: 0 <= i < |KnownCategories| && KnownCategories[i] == RawCategory(u)
        && ExternalCategory(u) == CategoryLabels[i] && ExternalCategoryIcon(u) == CategoryIcons[i]
  {
    assert "other" !in CategoryLabels;
    assert "ic_app_category_other" !in CategoryIcons;
  }

  lemma {:induction false} IndexOfAt(s: seq<string>, i: nat)
    requires i < |s| && forall j :: 0 <= j < i ==> s[j] != s[i]
    ensures IndexOf(s, s[i]) == Some(i)
  {
    if i > 0 {
      IndexOfAt(s[1..], i - 1);
    }
  }

  /** A bot with no app record is "other"; a wallet bot is "wallet" with
      the wallet icon; a games bot is "games" with the game icon. */
  lemma CategoryExamples(u: User)
    ensures u.app.None? ==> ExternalCategory(u) == "other" && ExternalCategoryIcon(u) == "ic_app_category_other"
    ensures u.app == Some(App("WALLET")) ==> ExternalCategory(u) == "wallet" && ExternalCategoryIcon(u) == "ic_app_category_wallet"
    ensures u.app == Some(App("GAMES")) ==> ExternalCategory(u) == "games" && ExternalCategoryIcon(u) == "ic_app_category_game"
  {
    if u.app.None? {
      assert "OTHER" !in KnownCategories;
    }
    IndexOfAt(KnownCategories, 0);
    assert KnownCategories[8] == "GAMES";
    IndexOfAt(KnownCategories, 8);
  }
}
