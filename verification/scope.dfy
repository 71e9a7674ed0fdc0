/** The authorization screen's scope list: which permissions an app asked
    for, in the fixed display order, each with its title and description.
    Localised strings are keys into the string table; the asset list and its
    balance formatting come from the caller. */
module ScopeModel {
  import opened Common

  datatype Scope =
    | PROFILE | PHONE | ASSETS | APPS_READ | APPS_WRITE | CONTACTS_READ
    | MESSAGES_REPRESENT | SNAPSHOTS_READ | CIRCLES_READ | CIRCLES_WRITE | COLLECTIBLES_READ

  function RawValue(s: Scope): string {
    match s
    case PROFILE => "PROFILE:READ"
    case PHONE => "PHONE:READ"
    case ASSETS => "ASSETS:READ"
    case APPS_READ => "APPS:READ"
    case APPS_WRITE => "APPS:WRITE"
    case CONTACTS_READ => "CONTACTS:READ"
    case MESSAGES_REPRESENT => "MESSAGES:REPRESENT"
    case SNAPSHOTS_READ => "SNAPSHOTS:READ"
    case CIRCLES_READ => "CIRCLES:READ"
    case CIRCLES_WRITE => "CIRCLES:WRITE"
    case COLLECTIBLES_READ => "COLLECTIBLES:READ"
  }

  /** A user-visible string: literal text, or a localised template with its
      arguments. */
  datatype Text = Literal(text: string) | Localized(key: string, args: seq<Text>)

  datatype Account = Account(fullName: string, identityNumber: string, phone: string)

  /** An asset as listed: its balance already formatted for the locale. */
  datatype AssetBalance = AssetBalance(localizedBalance: string, symbol: string)

  datatype ScopeInfo = ScopeInfo(scope: Scope, name: Text, desc: Text)

  /** The optional scopes, in display order. */
  const DisplayOrder: seq<Scope> := [PHONE, MESSAGES_REPRESENT, CONTACTS_READ, ASSETS, SNAPSHOTS_READ,
                                     APPS_READ, APPS_WRITE, CIRCLES_READ, CIRCLES_WRITE, COLLECTIBLES_READ]

  function Describe(asset: AssetBalance): string {
    asset.localizedBalance + " " + asset.symbol
  }

  /** `getAssetsBalanceText`: "0" without assets, then the first one or two,
      wrapped in the "more" template when there are further assets. */
  function AssetsBalanceText(assets: seq<AssetBalance>): (t: Text)
    ensures assets == [] ==> t == Literal("0")
    ensures |assets| == 1 ==> t == Literal(Describe(assets[0]))
    ensures |assets| == 2 ==> t == Literal(Describe(assets[0]) + ", " + Describe(assets[1]))
    ensures |assets| > 2 ==> t == Localized("auth_assets_more", [Literal(Describe(assets[0]) + ", " + Describe(assets[1]))])
  {
    if |assets| == 0 then Literal("0")
    else
      var first := Describe(assets[0]);
      var two := if |assets| > 1 then first + ", " + Describe(assets[1]) else first;
      if |assets| > 2 then Localized("auth_assets_more", [Literal(two)]) else Literal(two)
  }

  /** The row for one scope. */
  function Info(s: Scope, account: Account, assets: seq<AssetBalance>): (i: ScopeInfo)
    ensures i.scope == s
  {
    match s
    case PROFILE => ScopeInfo(s, Localized("public_profile", []),
                              Localized("auth_profile_content", [Literal(account.fullName), Literal(account.identityNumber)]))
    case PHONE => ScopeInfo(s, Localized("phone_number", []), Literal(account.phone))
    case MESSAGES_REPRESENT => ScopeInfo(s, Localized("represent_messages", []), Localized("auth_messages_represent_description", []))
    case CONTACTS_READ => ScopeInfo(s, Localized("read_contacts", []), Localized("access_your_contacts_list", []))
    case ASSETS => ScopeInfo(s, Localized("read_assets", []), AssetsBalanceText(assets))
    case SNAPSHOTS_READ => ScopeInfo(s, Localized("read_snapshots", []), Localized("access_your_snapshots", []))
    case APPS_READ => ScopeInfo(s, Localized("read_bots", []), Localized("access_your_bots_list", []))
    case APPS_WRITE => ScopeInfo(s, Localized("manage_bots", []), Localized("manage_all_your_bots", []))
    case CIRCLES_READ => ScopeInfo(s, Localized("read_circles", []), Localized("access_your_circle_list", []))
    case CIRCLES_WRITE => ScopeInfo(s, Localized("write_circles", []), Localized("manage_all_your_circles", []))
    case COLLECTIBLES_READ => ScopeInfo(s, Localized("read_collectibles", []), Localized("access_your_collectibles", []))
  }

  /** What each row depends on: only the profile and phone rows show
      account data, only the assets row shows balances, and every scope has
      a name of its own. */
  lemma InfoDependencies(s: Scope, t: Scope, a1: Account, a2: Account, as1: seq<AssetBalance>, as2: seq<AssetBalance>)
    ensures s != PROFILE && s != PHONE ==> Info(s, a1, as1) == Info(s, a2, as1)
    ensures s != ASSETS ==> Info(s, a1, as1) == Info(s, a1, as2)
    ensures Info(s, a1, as1).name.Localized? && Info(s, a1, as1).name.args == []
    ensures s != t ==> Info(s, a1, as1).name != Info(t, a1, as1).name
  {
  }

  /** Reference reading: the scopes shown, in order. */
  function GrantedScopes(requested: seq<string>): seq<Scope> {
    [PROFILE] + Filter(DisplayOrder, (s: Scope) => RawValue(s) in requested)
  }

  function ScopesOf(result: seq<ScopeInfo>): (r: seq<Scope>)
    ensures |r| == |result|
  {
    seq(|result|, i requires 0 <= i < |result| => result[i].scope)
  }

  /** `getCompleteScopeInfo`, one `if` per optional scope in display order. */
  method CompleteScopeInfo(account: Option<Account>, requested: seq<string>, assets: seq<AssetBalance>)
    returns (result: seq<ScopeInfo>, scopes: seq<string>)
    ensures account.None? ==> result == [] && scopes == [RawValue(PROFILE)]
    ensures account.Some? ==> ScopesOf(result) == GrantedScopes(requested)
    ensures account.Some? ==> |scopes| == |result|
    ensures account.Some? ==> forall i :: 0 <= i < |result| ==> scopes[i] == RawValue(result[i].scope)
    ensures account.Some? ==> forall i :: 0 <= i < |result| ==>
      result[i] == Info(result[i].scope, account.value, assets)
  {
    if account.None? {
      return [], [RawValue(PROFILE)];
    }
    var acc := account.value;
    result := [Info(PROFILE, acc, assets)];
    scopes := [RawValue(PROFILE)];
    var keep := (s: Scope) => RawValue(s) in requested;
    var k := 0;
    while k < |DisplayOrder|
      invariant 0 <= k <= |DisplayOrder|
      invariant ScopesOf(result) == [PROFILE] + Filter(DisplayOrder[..k], keep)
      invariant |scopes| == |result|
      invariant forall i :: 0 <= i < |result| ==> scopes[i] == RawValue(result[i].scope)
      invariant forall i :: 0 <= i < |result| ==> result[i] == Info(result[i].scope, acc, assets)
    {
      var s := DisplayOrder[k];
      ScopeStep(DisplayOrder, k, keep);
      if RawValue(s) in requested {
        assert ScopesOf(result + [Info(s, acc, assets)]) == ScopesOf(result) + [s];
        result := result + [Info(s, acc, assets)];
        scopes := scopes + [RawValue(s)];
      }
      k := k + 1;
    }
    assert DisplayOrder[..k] == DisplayOrder;
  }

  lemma ScopeStep(order: seq<Scope>, k: nat, keep: Scope -> bool)
    requires k < |order|
    ensures Filter(order[..k + 1], keep) == Filter(order[..k], keep) + (if keep(order[k]) then [order[k]] else [])
  {
    FilterAppend(order[..k], [order[k]], keep);
    assert order[..k + 1] == order[..k] + [order[k]];
    assert Filter([order[k]], keep) == (if keep(order[k]) then [order[k]] else []) + Filter([], keep);
  }

  lemma RawValuesDistinct()
    ensures forall a: Scope, b: Scope :: RawValue(a) == RawValue(b) ==> a == b
  {
    forall a: Scope, b: Scope | RawValue(a) == RawValue(b) ensures a == b {
      assert RawValue(a)[..3] == RawValue(b)[..3];
    }
  }

  /** Every scope except the profile has a place in the display order. */
  lemma InDisplayOrder(s: Scope)
    ensures s != PROFILE <==> s in DisplayOrder
  {
    match s
    case PROFILE => assert forall i :: 0 <= i < |DisplayOrder| ==> DisplayOrder[i] != PROFILE;
    case PHONE => assert DisplayOrder[0] == s;
    case MESSAGES_REPRESENT => assert DisplayOrder[1] == s;
    case CONTACTS_READ => assert DisplayOrder[2] == s;
    case ASSETS => assert DisplayOrder[3] == s;
    case SNAPSHOTS_READ => assert DisplayOrder[4] == s;
    case APPS_READ => assert DisplayOrder[5] == s;
    case APPS_WRITE => assert DisplayOrder[6] == s;
    case CIRCLES_READ => assert DisplayOrder[7] == s;
    case CIRCLES_WRITE => assert DisplayOrder[8] == s;
    case COLLECTIBLES_READ => assert DisplayOrder[9] == s;
  }

  /** Every other scope is shown exactly when its raw value was requested,
      and the profile is shown only in front. */
  lemma GrantedScopesMembership(requested: seq<string>)
    ensures GrantedScopes(requested)[0] == PROFILE
    ensures PROFILE !in GrantedScopes(requested)[1..]
    ensures forall s :: s != PROFILE ==> (s in GrantedScopes(requested) <==> RawValue(s) in requested)
  {
    var keep := (s: Scope) => RawValue(s) in requested;
    var g := GrantedScopes(requested);
    assert g[1..] == Filter(DisplayOrder, keep);
    InDisplayOrder(PROFILE);
    FilterMembership(DisplayOrder, keep, PROFILE);
    forall s | s != PROFILE ensures s in g <==> RawValue(s) in requested {
      InDisplayOrder(s);
      FilterMembership(DisplayOrder, keep, s);
      assert s in g <==> s in g[1..];
    }
  }

  /** The optional scopes appear in display order, whatever order the
      request used. */
  lemma GrantedScopesOrdered(requested: seq<string>)
    ensures IsSubsequence(GrantedScopes(requested)[1..], DisplayOrder)
  {
    var keep := (s: Scope) => RawValue(s) in requested;
    assert GrantedScopes(requested)[1..] == Filter(DisplayOrder, keep);
    FilterIsSubsequence(DisplayOrder, keep);
  }

  /** The request's order does not matter: any reordering of the requested
      strings gives the same scopes. */
  lemma RequestOrderIrrelevant(a: seq<string>, b: seq<string>)
    requires forall x :: x in a <==> x in b
    ensures GrantedScopes(a) == GrantedScopes(b)
  {
    FilterSameKeep(DisplayOrder, (s: Scope) => RawValue(s) in a, (s: Scope) => RawValue(s) in b);
  }

  lemma {:induction false} FilterSameKeep<T>(s: seq<T>, p: T -> bool, q: T -> bool)
    requires forall i :: 0 <= i < |s| ==> p(s[i]) == q(s[i])
    ensures Filter(s, p) == Filter(s, q)
  {
    if s != [] {
      FilterSameKeep(s[1..], p, q);
    }
  }
}
