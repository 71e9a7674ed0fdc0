/** A wallet asset: its deposit entries, the preferred entry, decoding from
    the API's JSON with per-field defaults, and the chain and deposit
    predicates keyed on fixed ids. */
module AssetModel {
  import opened Common

  /** A JSON value as the decoder sees it; numbers are integers here, since
      the only numeric field is an `Int`. */
  datatype Json =
    | JNull
    | JBool(b: bool)
    | JNumber(n: int)
    | JString(s: string)
    | JArray(items: seq<Json>)
    | JObject(fields: map<string, Json>)

  /** `DecodingError` cases, each with the key at fault. */
  datatype DecodeError = KeyNotFound(key: string) | ValueNotFound(key: string) | TypeMismatch(key: string) | DataCorrupted(key: string)

  datatype DepositEntry = DepositEntry(destination: string, tag: string, properties: Option<seq<string>>)

  datatype Asset = Asset(
    assetId: string,
    assetType: string,
    symbol: string,
    name: string,
    iconUrl: string,
    balance: string,
    destination: string,
    tag: string,
    priceBtc: string,
    priceUsd: string,
    changeUsd: string,
    chainId: string,
    confirmations: int,
    assetKey: string,
    reserve: string,
    depositEntries: seq<DepositEntry>)

  const PayToWitnessProperty := "P2WPKH_V0"

  const XrpAssetId := "23dfb5a5-5d7b-48b6-905f-3970e3176e27"
  const BitcoinChainId := "c6d0c728-2624-429b-8e0d-d9d19b6592fa"
  const EosChainId := "6cfe566e-4aad-470b-8c9a-2fd35b49c68d"
  const Erc20ChainId := "43d61dcd-e413-450d-80b8-101d5e903357"

  /** Assets whose deposits are switched off: MGD, Bytom Classic, OMNI USDT. */
  const DepositNotSupportedAssetIds: set<string> := {
    "b207bce9-c248-4b8e-b6e3-e357146f3f4c",
    "443e1ef5-bc9b-47d3-be77-07f328876c50",
    "815b0b1a-2764-3736-8faa-42d694fa620a"
  }

  const Int64Min := -0x8000_0000_0000_0000
  const Int64Max := 0x7fff_ffff_ffff_ffff

  // ---------------------------------------------------------------------
  // Deposit entries

  /** `payToWitness`: the entry lists the P2WPKH property; no property list
      means no. */
  predicate PayToWitness(e: DepositEntry) {
    e.properties.Some? && PayToWitnessProperty in e.properties.value
  }

  /** Index of the first pay-to-witness entry. */
  function FirstPayToWitness(entries: seq<DepositEntry>): (r: Option<nat>)
    ensures r.Some? ==> r.value < |entries| && PayToWitness(entries[r.value])
    ensures r.Some? ==> forall i :: 0 <= i < r.value ==> !PayToWitness(entries[i])
    ensures r.None? ==> forall i :: 0 <= i < |entries| ==> !PayToWitness(entries[i])
  {
    if entries == [] then None
    else if PayToWitness(entries[0]) then Some(0)
    else match FirstPayToWitness(entries[1..])
      case Some(i) => Some(i + 1)
      case None => None
  }

  /** `preferredDepositEntry`: with several entries, the first pay-to-witness
      one, falling back to the first; otherwise the only entry, if any. */
  function PreferredDepositEntry(a: Asset): (r: Option<DepositEntry>)
    ensures r.None? <==> a.depositEntries == []
    ensures |a.depositEntries| == 1 ==> r == Some(a.depositEntries[0])
    ensures r.Some? ==> r.value in a.depositEntries
    ensures r.Some? && !PayToWitness(r.value) ==> r.value == a.depositEntries[0]
  {
    var entries := a.depositEntries;
    if |entries| > 1 then
      match FirstPayToWitness(entries)
      case Some(i) => Some(entries[i])
      case None => Some(entries[0])
    else if entries == [] then None
    else Some(entries[0])
  }

  /** The preferred entry is pay-to-witness whenever any entry is (given
      more than one), and no pay-to-witness entry comes before it. */
  lemma PreferredIsFirstWitness(a: Asset, i: nat)
    requires |a.depositEntries| > 1 && i < |a.depositEntries| && PayToWitness(a.depositEntries[i])
    ensures PreferredDepositEntry(a).Some? && PayToWitness(PreferredDepositEntry(a).value)
    ensures exists j :: (0 <= j <= i && PreferredDepositEntry(a) == Some(a.depositEntries[j])
      && forall k :: 0 <= k < j ==> !PayToWitness(a.depositEntries[k]))
  {
    var r := FirstPayToWitness(a.depositEntries);
    assert r.Some?;
    assert r.value <= i;
  }

  /** With no pay-to-witness entry the first entry is preferred. */
  lemma PreferredFallsBackToFirst(a: Asset)
    requires a.depositEntries != []
    requires forall i :: 0 <= i < |a.depositEntries| ==> !PayToWitness(a.depositEntries[i])
    ensures PreferredDepositEntry(a) == Some(a.depositEntries[0])
  {
  }

  // ---------------------------------------------------------------------
  // Chain and deposit predicates

  predicate UsesTag(a: Asset) { a.assetId == XrpAssetId }
  predicate IsBitcoinChain(a: Asset) { a.chainId == BitcoinChainId }
  predicate IsEosChain(a: Asset) { a.chainId == EosChainId }
  predicate IsErc20(a: Asset) { a.chainId == Erc20ChainId }

  predicate IsDepositSupported(a: Asset) {
    a.assetId !in DepositNotSupportedAssetIds
  }

  /** An asset sits on at most one of the recognised chains, and the
      tag-using XRP asset is not one whose deposits are switched off. */
  lemma ChainsExclusive(a: Asset)
    ensures !(IsBitcoinChain(a) && IsEosChain(a))
    ensures !(IsBitcoinChain(a) && IsErc20(a))
    ensures !(IsEosChain(a) && IsErc20(a))
    ensures UsesTag(a) ==> IsDepositSupported(a)
  {
  }

  /** Deposits are unsupported for exactly three assets. */
  lemma DepositUnsupportedExactlyThree()
    ensures |DepositNotSupportedAssetIds| == 3
  {
  }

  // ---------------------------------------------------------------------
  // Decoding

  /** `decode(String.self, forKey:)`: the key must be present and hold a
      string. */
  function DecodeString(obj: map<string, Json>, key: string): (r: Result<string, DecodeError>)
    ensures r.Success? <==> key in obj && obj[key].JString?
    ensures r.Success? ==> r.value == obj[key].s
    ensures key !in obj ==> r == Failure(KeyNotFound(key))
  {
    if key !in obj then Failure(KeyNotFound(key))
    else match obj[key]
      case JString(s) => Success(s)
      case JNull => Failure(ValueNotFound(key))
      case _ => Failure(TypeMismatch(key))
  }

  /** `decodeIfPresent(String.self, forKey:)`: absent or null is nil, any
      other non-string is an error. */
  function DecodeStringIfPresent(obj: map<string, Json>, key: string): (r: Result<Option<string>, DecodeError>)
    ensures key !in obj || obj[key].JNull? ==> r == Success(None)
    ensures key in obj && obj[key].JString? ==> r == Success(Some(obj[key].s))
    ensures r.Failure? ==> r.error == TypeMismatch(key)
  {
    if key !in obj then Success(None)
    else match obj[key]
      case JNull => Success(None)
      case JString(s) => Success(Some(s))
      case _ => Failure(TypeMismatch(key))
  }

  /** What `decodeIfPresent(String.self, forKey:)` accepts: an absent key,
      null or a string. */
  predicate OptionalString(obj: map<string, Json>, key: string) {
    key !in obj || obj[key].JNull? || obj[key].JString?
  }

  /** The string under `key`, or "" when there is none. */
  function StringField(obj: map<string, Json>, key: string): string {
    if key in obj && obj[key].JString? then obj[key].s else ""
  }

  /** `decodeIfPresent(String.self, forKey:) ?? ""`. */
  function StringOr(obj: map<string, Json>, key: string): (r: Result<string, DecodeError>)
    ensures r.Success? <==> OptionalString(obj, key)
    ensures r.Success? ==> r.value == StringField(obj, key)
    ensures r.Failure? ==> r.error == TypeMismatch(key)
  {
    var v :- DecodeStringIfPresent(obj, key);
    Success(v.GetOr(""))
  }

  /** `decodeIfPresent(Int.self, forKey:)`: numbers outside the 64-bit range
      do not fit. */
  function DecodeIntIfPresent(obj: map<string, Json>, key: string): (r: Result<Option<int>, DecodeError>)
    ensures key !in obj || obj[key].JNull? ==> r == Success(None)
    ensures r.Success? && r.value.Some? ==> Int64Min <= r.value.value <= Int64Max
  {
    if key !in obj then Success(None)
    else match obj[key]
      case JNull => Success(None)
      case JNumber(n) => if Int64Min <= n <= Int64Max then Success(Some(n)) else Failure(DataCorrupted(key))
      case _ => Failure(TypeMismatch(key))
  }

  function DecodeStrings(items: seq<Json>, key: string): (r: Result<seq<string>, DecodeError>)
    ensures r.Success? ==> |r.value| == |items|
    ensures r.Success? ==> forall i :: 0 <= i < |items| ==> items[i] == JString(r.value[i])
  {
    if items == [] then Success([])
    else match items[0]
      case JString(s) =>
        (match DecodeStrings(items[1..], key)
         case Success(rest) => Success([s] + rest)
         case Failure(e) => Failure(e))
      case JNull => Failure(ValueNotFound(key))
      case _ => Failure(TypeMismatch(key))
  }

  /** The synthesised `DepositEntry` decoder. */
  function DecodeEntry(j: Json): (r: Result<DepositEntry, DecodeError>)
    ensures r.Success? ==>
      && j.JObject? && "destination" in j.fields && "tag" in j.fields
      && j.fields["destination"] == JString(r.value.destination) && j.fields["tag"] == JString(r.value.tag)
    ensures r.Success? && r.value.properties.None? ==> "properties" !in j.fields || j.fields["properties"].JNull?
    ensures j.JObject? && "destination" !in j.fields ==> r == Failure(KeyNotFound("destination"))
    ensures j.JNull? ==> r == Failure(ValueNotFound("deposit_entries"))
  {
    match j
    case JObject(obj) =>
      var destination :- DecodeString(obj, "destination");
      var tag :- DecodeString(obj, "tag");
      var properties :- (
        if "properties" !in obj || obj["properties"].JNull? then Success(None)
        else match obj["properties"]
          case JArray(items) =>
            (match DecodeStrings(items, "properties")
             case Success(ps) => Success(Some(ps))
             case Failure(e) => Failure(e))
          case _ => Failure(TypeMismatch("properties")));
      Success(DepositEntry(destination, tag, properties))
    case JNull => Failure(ValueNotFound("deposit_entries"))
    case _ => Failure(TypeMismatch("deposit_entries"))
  }

  function DecodeEntries(items: seq<Json>): (r: Result<seq<DepositEntry>, DecodeError>)
    ensures r.Success? ==> |r.value| == |items|
  {
    if items == [] then Success([])
    else
      var head :- DecodeEntry(items[0]);
      var rest :- DecodeEntries(items[1..]);
      Success([head] + rest)
  }

  /** The identity fields of `init(from:)`, in declaration order. */
  datatype Names = Names(assetId: string, assetType: string, symbol: string, name: string, iconUrl: string)

  /** The amount fields. */
  datatype Amounts = Amounts(balance: string, destination: string, tag: string, priceBtc: string, priceUsd: string)

  /** The chain fields and the deposit entries. */
  datatype ChainInfo = ChainInfo(changeUsd: string, chainId: string, confirmations: int, assetKey: string, reserve: string, entries: seq<DepositEntry>)

  function DecodeNames(obj: map<string, Json>): (r: Result<Names, DecodeError>)
    ensures r.Success? <==>
      && "asset_id" in obj && obj["asset_id"].JString?
      && OptionalString(obj, "type") && OptionalString(obj, "symbol")
      && OptionalString(obj, "name") && OptionalString(obj, "icon_url")
    ensures r.Success? ==> r.value == Names(obj["asset_id"].s, StringField(obj, "type"), StringField(obj, "symbol"),
                                            StringField(obj, "name"), StringField(obj, "icon_url"))
  {
    var assetId :- DecodeString(obj, "asset_id");
    var assetType :- StringOr(obj, "type");
    var symbol :- StringOr(obj, "symbol");
    var name :- StringOr(obj, "name");
    var iconUrl :- StringOr(obj, "icon_url");
    Success(Names(assetId, assetType, symbol, name, iconUrl))
  }

  function DecodeAmounts(obj: map<string, Json>): (r: Result<Amounts, DecodeError>)
    ensures r.Success? <==>
      && OptionalString(obj, "balance") && OptionalString(obj, "destination") && OptionalString(obj, "tag")
      && OptionalString(obj, "price_btc") && OptionalString(obj, "price_usd")
    ensures r.Success? ==> r.value == Amounts(StringField(obj, "balance"), StringField(obj, "destination"),
                                              StringField(obj, "tag"), StringField(obj, "price_btc"),
                                              StringField(obj, "price_usd"))
  {
    var balance :- StringOr(obj, "balance");
    var destination :- StringOr(obj, "destination");
    var tag :- StringOr(obj, "tag");
    var priceBtc :- StringOr(obj, "price_btc");
    var priceUsd :- StringOr(obj, "price_usd");
    Success(Amounts(balance, destination, tag, priceBtc, priceUsd))
  }

  /** What `decodeIfPresent(Int.self, forKey: .confirmations)` accepts. */
  predicate OptionalInt(obj: map<string, Json>, key: string) {
    key !in obj || obj[key].JNull? || (obj[key].JNumber? && Int64Min <= obj[key].n <= Int64Max)
  }

  /** What `decodeIfPresent([DepositEntry].self, forKey:)` accepts: absent,
      null, or an array every element of which decodes. */
  predicate OptionalEntries(obj: map<string, Json>) {
    "deposit_entries" !in obj || obj["deposit_entries"].JNull?
    || (obj["deposit_entries"].JArray? && DecodeEntries(obj["deposit_entries"].items).Success?)
  }

  function DecodeChainInfo(obj: map<string, Json>): (r: Result<ChainInfo, DecodeError>)
    ensures r.Success? <==>
      && OptionalString(obj, "change_usd") && OptionalString(obj, "chain_id") && OptionalInt(obj, "confirmations")
      && OptionalString(obj, "asset_key") && OptionalString(obj, "reserve") && OptionalEntries(obj)
    ensures r.Success? ==>
      && r.value.changeUsd == StringField(obj, "change_usd") && r.value.chainId == StringField(obj, "chain_id")
      && r.value.assetKey == StringField(obj, "asset_key") && r.value.reserve == StringField(obj, "reserve")
      && r.value.confirmations == (if "confirmations" in obj && obj["confirmations"].JNumber? then obj["confirmations"].n else 0)
      && ("deposit_entries" !in obj || obj["deposit_entries"].JNull? ==> r.value.entries == [])
      && ("deposit_entries" in obj && obj["deposit_entries"].JArray? ==>
            DecodeEntries(obj["deposit_entries"].items) == Success(r.value.entries))
  {
    var changeUsd :- StringOr(obj, "change_usd");
    var chainId :- StringOr(obj, "chain_id");
    var confirmations :- DecodeIntIfPresent(obj, "confirmations");
    var assetKey :- StringOr(obj, "asset_key");
    var reserve :- StringOr(obj, "reserve");
    var entries :- (
      if "deposit_entries" !in obj || obj["deposit_entries"].JNull? then Success([])
      else match obj["deposit_entries"]
        case JArray(items) => DecodeEntries(items)
        case _ => Failure(TypeMismatch("deposit_entries")));
    Success(ChainInfo(changeUsd, chainId, confirmations.GetOr(0), assetKey, reserve, entries))
  }

  /** `init(from:)`: `asset_id` is required; every other string defaults to
      "", `confirmations` to 0 and `deposit_entries` to none. Fields are read
      in declaration order and the first bad one is reported. */
  function DecodeAsset(j: Json): (r: Result<Asset, DecodeError>)
    ensures r.Success? ==> j.JObject? && "asset_id" in j.fields && j.fields["asset_id"] == JString(r.value.assetId)
    ensures j.JObject? && "asset_id" !in j.fields ==> r == Failure(KeyNotFound("asset_id"))
    ensures j.JObject? ==> (r.Success? <==>
      DecodeNames(j.fields).Success? && DecodeAmounts(j.fields).Success? && DecodeChainInfo(j.fields).Success?)
    ensures r.Success? ==>
      var obj := j.fields;
      && r.value.assetType == StringField(obj, "type") && r.value.symbol == StringField(obj, "symbol")
      && r.value.name == StringField(obj, "name") && r.value.iconUrl == StringField(obj, "icon_url")
      && r.value.balance == StringField(obj, "balance") && r.value.destination == StringField(obj, "destination")
      && r.value.tag == StringField(obj, "tag") && r.value.priceBtc == StringField(obj, "price_btc")
      && r.value.priceUsd == StringField(obj, "price_usd") && r.value.changeUsd == StringField(obj, "change_usd")
      && r.value.chainId == StringField(obj, "chain_id") && r.value.assetKey == StringField(obj, "asset_key")
      && r.value.reserve == StringField(obj, "reserve")
      && r.value.confirmations == (if "confirmations" in obj && obj["confirmations"].JNumber? then obj["confirmations"].n else 0)
      && ("deposit_entries" !in obj || obj["deposit_entries"].JNull? ==> r.value.depositEntries == [])
      && ("deposit_entries" in obj && obj["deposit_entries"].JArray? ==>
            DecodeEntries(obj["deposit_entries"].items) == Success(r.value.depositEntries))
  {
    match j
    case JObject(obj) =>
      var n :- DecodeNames(obj);
      var m :- DecodeAmounts(obj);
      var c :- DecodeChainInfo(obj);
      Success(Asset(n.assetId, n.assetType, n.symbol, n.name, n.iconUrl,
                    m.balance, m.destination, m.tag, m.priceBtc, m.priceUsd,
                    c.changeUsd, c.chainId, c.confirmations, c.assetKey, c.reserve, c.entries))
    case _ => Failure(TypeMismatch(""))
  }

  /** An object holding only the asset id decodes to the all-defaults asset. */
  lemma DecodeDefaults(assetId: string)
    ensures DecodeAsset(JObject(map["asset_id" := JString(assetId)]))
         == Success(Asset(assetId, "", "", "", "", "", "", "", "", "", "", "", 0, "", "", []))
  {
  }

  // ---------------------------------------------------------------------
  // Encoding

  function EncodeStrings(ss: seq<string>): (r: seq<Json>)
    ensures |r| == |ss| && forall i :: 0 <= i < |ss| ==> r[i] == JString(ss[i])
  {
    seq(|ss|, i requires 0 <= i < |ss| => JString(ss[i]))
  }

  /** The synthesised `DepositEntry` encoder: nil properties are omitted. */
  function EncodeEntry(e: DepositEntry): Json {
    var base := map["destination" := JString(e.destination), "tag" := JString(e.tag)];
    match e.properties
    case Some(ps) => JObject(base["properties" := JArray(EncodeStrings(ps))])
    case None => JObject(base)
  }

  /** The synthesised `Asset` encoder over the coding keys. */
  function EncodeAsset(a: Asset): (j: Json)
    ensures j.JObject? && "asset_id" in j.fields && j.fields["asset_id"] == JString(a.assetId)
    ensures j.JObject? && forall k :: k in j.fields ==> !j.fields[k].JNull?
  {
    JObject(map[
      "asset_id" := JString(a.assetId),
      "type" := JString(a.assetType),
      "symbol" := JString(a.symbol),
      "name" := JString(a.name),
      "icon_url" := JString(a.iconUrl),
      "balance" := JString(a.balance),
      "destination" := JString(a.destination),
      "tag" := JString(a.tag),
      "price_btc" := JString(a.priceBtc),
      "price_usd" := JString(a.priceUsd),
      "change_usd" := JString(a.changeUsd),
      "chain_id" := JString(a.chainId),
      "confirmations" := JNumber(a.confirmations),
      "asset_key" := JString(a.assetKey),
      "reserve" := JString(a.reserve),
      "deposit_entries" := JArray(seq(|a.depositEntries|, i requires 0 <= i < |a.depositEntries| => EncodeEntry(a.depositEntries[i])))])
  }

  lemma {:induction false} DecodeEncodeStrings(ss: seq<string>, key: string)
    ensures DecodeStrings(EncodeStrings(ss), key) == Success(ss)
  {
    if ss != [] {
      DecodeEncodeStrings(ss[1..], key);
      assert EncodeStrings(ss)[0] == JString(ss[0]);
      assert EncodeStrings(ss)[1..] == EncodeStrings(ss[1..]);
      assert [ss[0]] + ss[1..] == ss;
    }
  }

  lemma DecodeEncodeEntry(e: DepositEntry)
    ensures DecodeEntry(EncodeEntry(e)) == Success(e)
  {
    if e.properties.Some? {
      DecodeEncodeStrings(e.properties.value, "properties");
    }
  }

  lemma {:induction false} DecodeEncodeEntries(es: seq<DepositEntry>)
    ensures DecodeEntries(seq(|es|, i requires 0 <= i < |es| => EncodeEntry(es[i]))) == Success(es)
  {
    var js := seq(|es|, i requires 0 <= i < |es| => EncodeEntry(es[i]));
    if es != [] {
      DecodeEncodeEntry(es[0]);
      DecodeEncodeEntries(es[1..]);
      assert js[0] == EncodeEntry(es[0]);
      assert js[1..] == seq(|es[1..]|, i requires 0 <= i < |es[1..]| => EncodeEntry(es[1..][i]));
      assert [es[0]] + es[1..] == es;
    }
  }

  lemma DecodeEncodeNames(a: Asset)
    ensures DecodeNames(EncodeAsset(a).fields) == Success(Names(a.assetId, a.assetType, a.symbol, a.name, a.iconUrl))
  {
    var obj := EncodeAsset(a).fields;
    assert obj["asset_id"] == JString(a.assetId);
    assert obj["type"] == JString(a.assetType);
    assert obj["symbol"] == JString(a.symbol);
    assert obj["name"] == JString(a.name);
    assert obj["icon_url"] == JString(a.iconUrl);
  }

  lemma DecodeEncodeAmounts(a: Asset)
    ensures DecodeAmounts(EncodeAsset(a).fields) == Success(Amounts(a.balance, a.destination, a.tag, a.priceBtc, a.priceUsd))
  {
    var obj := EncodeAsset(a).fields;
    assert obj["balance"] == JString(a.balance);
    assert obj["destination"] == JString(a.destination);
    assert obj["tag"] == JString(a.tag);
    assert obj["price_btc"] == JString(a.priceBtc);
    assert obj["price_usd"] == JString(a.priceUsd);
  }

  lemma DecodeEncodeChainInfo(a: Asset)
    requires Int64Min <= a.confirmations <= Int64Max
    ensures DecodeChainInfo(EncodeAsset(a).fields)
         == Success(ChainInfo(a.changeUsd, a.chainId, a.confirmations, a.assetKey, a.reserve, a.depositEntries))
  {
    var obj := EncodeAsset(a).fields;
    assert obj["change_usd"] == JString(a.changeUsd);
    assert obj["chain_id"] == JString(a.chainId);
    assert obj["confirmations"] == JNumber(a.confirmations);
    assert obj["asset_key"] == JString(a.assetKey);
    assert obj["reserve"] == JString(a.reserve);
    var es := a.depositEntries;
    assert obj["deposit_entries"] == JArray(seq(|es|, i requires 0 <= i < |es| => EncodeEntry(es[i])));
    DecodeEncodeEntries(es);
  }

  /** Encoding then decoding gives the asset back, for any confirmation count
      an `Int` can hold. */
  lemma DecodeEncodeAsset(a: Asset)
    requires Int64Min <= a.confirmations <= Int64Max
    ensures DecodeAsset(EncodeAsset(a)) == Success(a)
  {
    DecodeEncodeNames(a);
    DecodeEncodeAmounts(a);
    DecodeEncodeChainInfo(a);
  }
}
