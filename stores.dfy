/** What the monitor decides about one store entry of the fulfillment
    answer: whether it passes the device's whitelist (`filterStore` and the
    empty-whitelist shortcut), whether the device is available there
    (`judgingStoreInventory`), and the text reported for it (the status line
    and `buildPickupInformation`). */
module Stores {
  import opened Json
  import Text

  const StoreNameKey := "storeName"
  const PartsKey := "partsAvailability"
  const MessageTypesKey := "messageTypes"
  const RegularKey := "regular"
  const TitleKey := "storePickupProductTitle"
  const QuoteKey := "pickupSearchQuote"
  const PickupDisplayKey := "pickupDisplay"
  const RetailStoreKey := "retailStore"
  const AddressKey := "address"
  const TwoLineAddressKey := "twoLineAddress"
  const PhoneKey := "daytimePhone"
  const DistanceKey := "distanceWithUnit"

  /** The only `pickupDisplay` value that means "available for pickup". */
  const AvailableToken := "available"

  const StatusTemplate := "门店:{},型号:{},状态:{}"
  const PickupTemplate := "\n取货地址:{},电话:{},距离{}:{}"
  const NoAddress := "暂无取货地址"
  const NoPhone := "暂无联系电话"

  /** `j[key]` for an object `j`; `Null` when the key is missing or `j` is
      not an object. Nested uses name a path through the answer. */
  function Member(j: Json, key: string): Json
  {
    if j.Obj? then Lookup(j.members, key) else Null
  }

  /** What the formatter prints for a Java String that may be null. */
  function Shown(s: Option<string>): string
  {
    match s
    case None => "null"
    case Some(t) => t
  }

  /** `StrUtil.isEmpty(s) ? fallback : s`. */
  function OrElse(s: Option<string>, fallback: string): (r: string)
  {
    if s == None || s.value == "" then fallback else s.value
  }

  // ---------------------------------------------------------------------
  // Whitelist

  /** The match `filterStore` tests between a store name and one whitelist
      entry: either one contains the other. */
  predicate Matches(storeName: string, entry: string)
  {
    Text.Contains(storeName, entry) || Text.Contains(entry, storeName)
  }

  /** `filterStore`: `anyMatch` over the whitelist, in whitelist order. */
  function PassesWhitelist(storeName: string, whitelist: seq<string>): (r: bool)
    ensures r <==> exists i :: 0 <= i < |whitelist| && Matches(storeName, whitelist[i])
  {
    if whitelist == [] then false
    else if Matches(storeName, whitelist[0]) then true
    else
      var r := PassesWhitelist(storeName, whitelist[1..]);
      assert forall i :: 0 < i < |whitelist| ==> whitelist[i] == whitelist[1..][i - 1];
      r
  }

  /** A store name and a whitelist entry in either substring relation match;
      in particular every entry matches a name equal to it, and the empty
      entry matches every name. */
  lemma MatchesBothWays(storeName: string, entry: string)
    ensures Matches(storeName, entry) <==>
      (exists i :: Text.OccursAt(storeName, entry, i)) || (exists i :: Text.OccursAt(entry, storeName, i))
    ensures Matches(storeName, storeName) && Matches(storeName, "")
  {
    assert Text.OccursAt(storeName, storeName, 0);
    assert Text.OccursAt(storeName, "", 0);
  }

  /** The stream filter of the store loop for one entry. An empty whitelist
      keeps the entry without looking at it; otherwise the entry must be an
      object with a `storeName` (a missing name, or an entry that is not an
      object, makes the filter throw) and the name, as written (untrimmed),
      must match some whitelist entry. */
  function KeepStore(store: Json, whitelist: seq<string>): (r: Result<bool>)
  {
    if whitelist == [] then Ok(true)
    else
      var name :- GetString(store, StoreNameKey);
      if name.None? then Thrown else Ok(PassesWhitelist(name.value, whitelist))
  }

  /** An empty whitelist keeps every entry. Otherwise the filter throws
      exactly when the entry is not an object or has no `storeName`, and
      keeps the entry exactly when that name, untrimmed, passes the
      whitelist. */
  lemma KeepStoreMeaning(store: Json, whitelist: seq<string>)
    ensures whitelist == [] ==> KeepStore(store, whitelist) == Ok(true)
    ensures whitelist != [] ==>
      (KeepStore(store, whitelist).Ok? <==> store.Obj? && AsString(Lookup(store.members, StoreNameKey)).Some?)
    ensures whitelist != [] && KeepStore(store, whitelist).Ok? ==>
      KeepStore(store, whitelist).value == PassesWhitelist(AsString(Lookup(store.members, StoreNameKey)).value, whitelist)
  {
    if whitelist != [] {
      GetStringMeaning(store, StoreNameKey);
    }
  }

  /** The stores the stream filter lets through, taken as a whole: the first
      entry on which the filter throws makes the whole filter throw. */
  function Survivors(stores: seq<Json>, whitelist: seq<string>): Result<seq<Json>>
  {
    if stores == [] then Ok([])
    else
      var keep :- KeepStore(stores[0], whitelist);
      var rest :- Survivors(stores[1..], whitelist);
      Ok(if keep then [stores[0]] + rest else rest)
  }

  /** A single entry survives exactly when the filter keeps it. */
  lemma SurvivorsOne(store: Json, whitelist: seq<string>)
    requires KeepStore(store, whitelist).Ok?
    ensures Survivors([store], whitelist) == Ok(if KeepStore(store, whitelist).value then [store] else [])
  {
    assert [store][1..] == [];
    assert [store] + [] == [store];
  }

  /** With an empty whitelist the filter is the identity. */
  lemma {:induction false} SurvivorsOfEmptyWhitelist(stores: seq<Json>)
    ensures Survivors(stores, []) == Ok(stores)
  {
    if stores != [] {
      SurvivorsOfEmptyWhitelist(stores[1..]);
      assert stores == [stores[0]] + stores[1..];
    }
  }

  /** Filtering a concatenation filters each part and keeps them in order:
      surviving stores appear in their input order. */
  lemma {:induction false} SurvivorsAppend(a: seq<Json>, b: seq<Json>, whitelist: seq<string>)
    ensures Survivors(a + b, whitelist).Ok? <==> Survivors(a, whitelist).Ok? && Survivors(b, whitelist).Ok?
    ensures Survivors(a + b, whitelist).Ok? ==>
      Survivors(a + b, whitelist).value == Survivors(a, whitelist).value + Survivors(b, whitelist).value
  {
    if a == [] {
      assert a + b == b;
    } else {
      assert (a + b)[0] == a[0];
      assert (a + b)[1..] == a[1..] + b;
      SurvivorsAppend(a[1..], b, whitelist);
    }
  }

  /** A store survives exactly when the filter accepts it; when the filter
      does not throw it accepted or rejected every store. */
  lemma {:induction false} SurvivorsMembers(stores: seq<Json>, whitelist: seq<string>)
    requires Survivors(stores, whitelist).Ok?
    ensures forall s :: s in stores ==> KeepStore(s, whitelist).Ok?
    ensures forall s :: s in Survivors(stores, whitelist).value <==> s in stores && KeepStore(s, whitelist) == Ok(true)
  {
    if stores != [] {
      SurvivorsMembers(stores[1..], whitelist);
      assert forall s :: s in stores <==> s == stores[0] || s in stores[1..];
    }
  }

  // ---------------------------------------------------------------------
  // Availability

  /** `judgingStoreInventory`: reads `partsAvailability[code].pickupDisplay`
      and compares it exactly with "available". It throws when the store,
      its `partsAvailability` or the entry for the device code is not an
      object; otherwise the answer depends on that one field alone. */
  function JudgeInventory(store: Json, code: string): (r: Result<bool>)
  {
    var parts :- GetObject(store, PartsKey);
    var part :- GetObject(parts, code);
    var status :- GetString(part, PickupDisplayKey);
    Ok(status == Some(AvailableToken))
  }

  /** The check throws exactly when the store, its `partsAvailability` or
      the entry for the device code is not an object; otherwise the device
      is available exactly when that entry's `pickupDisplay` is the string
      "available". */
  lemma JudgeInventoryMeaning(store: Json, code: string)
    ensures JudgeInventory(store, code).Ok? <==>
      store.Obj? && Member(store, PartsKey).Obj? && Member(Member(store, PartsKey), code).Obj?
    ensures JudgeInventory(store, code).Ok? ==>
      (JudgeInventory(store, code).value <==> Member(Member(Member(store, PartsKey), code), PickupDisplayKey) == Str(AvailableToken))
  {
    GetObjectMeaning(store, PartsKey);
    if store.Obj? {
      var parts := Member(store, PartsKey);
      GetObjectMeaning(parts, code);
      if parts.Obj? {
        AsStringMeaning(Member(Member(parts, code), PickupDisplayKey));
      }
    }
  }

  /** Two stores whose `pickupDisplay` for the device agree, and on which
      the check does not throw, are judged alike: no other field counts. */
  lemma OnlyPickupDisplayCounts(s1: Json, s2: Json, code: string)
    requires JudgeInventory(s1, code).Ok? && JudgeInventory(s2, code).Ok?
    requires Member(Member(Member(s1, PartsKey), code), PickupDisplayKey) == Member(Member(Member(s2, PartsKey), code), PickupDisplayKey)
    ensures JudgeInventory(s1, code) == JudgeInventory(s2, code)
  {
    JudgeInventoryMeaning(s1, code);
    JudgeInventoryMeaning(s2, code);
  }

  // ---------------------------------------------------------------------
  // Messages

  /** The status line of one store: store name, device title, status text. */
  function StatusLine(storeName: string, title: string, quote: string): string
  {
    "门店:" + storeName + ",型号:" + title + ",状态:" + quote
  }

  /** The line the source formats from its status template is `StatusLine`:
      each placeholder takes its argument, in order, and the literal parts
      are kept. */
  lemma StatusTemplateFilled(storeName: string, title: string, quote: string)
    ensures Text.Format(StatusTemplate, [storeName, title, quote]) == StatusLine(storeName, title, quote)
  {
    assert StatusTemplate == "门店:" + "{}" + ",型号:" + "{}" + ",状态:" + "{}";
    Text.FormatThree("门店:", ",型号:", ",状态:", storeName, title, quote);
  }

  /** `buildPickupInformation(retailStore)`: address and phone of the store,
      each replaced by its fallback text when null or empty, the line breaks
      of the address turned into spaces, then the configured location and
      the distance. It throws when the store or its `address` is not an
      object. */
  function PickupInformation(retailStore: Json, location: string): (r: Result<string>)
  {
    var distance :- GetString(retailStore, DistanceKey);
    var address :- GetObject(retailStore, AddressKey);
    var twoLine :- GetString(address, TwoLineAddressKey);
    // `address` is known to be an object from here on: these reads cannot throw.
    var phone := AsString(Member(address, PhoneKey));
    var addr := Text.ReplaceNewlines(OrElse(twoLine, NoAddress));
    var tel := OrElse(phone, NoPhone);
    Ok(PickupLine(addr, tel, location, Shown(distance)))
  }

  /** The pickup information exists exactly when the store and its `address`
      are objects, and it is the pickup text of the two-line address (or
      its fallback) with line breaks turned into spaces, the phone (or its
      fallback), the location and the distance as the formatter shows it. */
  lemma PickupInformationMeaning(retailStore: Json, location: string)
    ensures PickupInformation(retailStore, location).Ok? <==>
      retailStore.Obj? && Member(retailStore, AddressKey).Obj?
    ensures PickupInformation(retailStore, location).Ok? ==>
      var address := Member(retailStore, AddressKey);
      PickupInformation(retailStore, location).value
        == PickupLine(Text.ReplaceNewlines(OrElse(AsString(Member(address, TwoLineAddressKey)), NoAddress)),
                      OrElse(AsString(Member(address, PhoneKey)), NoPhone),
                      location,
                      Shown(AsString(Member(retailStore, DistanceKey))))
  {
  }

  /** The pickup text: address, phone, the configured location and the
      distance. */
  function PickupLine(address: string, phone: string, location: string, distance: string): string
  {
    "\n取货地址:" + address + ",电话:" + phone + ",距离" + location + ":" + distance
  }

  /** The text the source formats from its pickup template is `PickupLine`. */
  lemma PickupTemplateFilled(address: string, phone: string, location: string, distance: string)
    ensures Text.Format(PickupTemplate, [address, phone, location, distance]) == PickupLine(address, phone, location, distance)
  {
    assert PickupTemplate == "\n取货地址:" + "{}" + ",电话:" + "{}" + ",距离" + "{}" + ":" + "{}";
    Text.FormatFour("\n取货地址:", ",电话:", ",距离", ":", address, phone, location, distance);
  }

  /** A pickup message never shows an empty address or phone, and the
      address part carries no line break. */
  lemma PickupFallbacks(twoLine: Option<string>, phone: Option<string>)
    ensures OrElse(twoLine, NoAddress) != "" && OrElse(phone, NoPhone) != ""
    ensures '\n' !in Text.ReplaceNewlines(OrElse(twoLine, NoAddress))
  {
    Text.ReplaceNewlinesLeavesNone(OrElse(twoLine, NoAddress));
  }

  /** What the loop body reports for a store that passed the filter: the
      message and whether the device is available there. */
  datatype Report = Report(content: string, available: bool)

  /** The body of the loop succeeds exactly when the store is an object with
      a name, the device entry and its `messageTypes.regular` are objects,
      and, when the device is available, the retail store and its address
      are objects. Its message is the status line of the trimmed name, the
      title and the quote, followed by the pickup information when the
      device is available, which is exactly when `pickupDisplay` is
      "available". */
  lemma EvaluateMeaning(store: Json, code: string, location: string)
    ensures var r := Evaluate(store, code, location);
      r.Ok? ==> r.value.available == (Member(Member(Member(store, PartsKey), code), PickupDisplayKey) == Str(AvailableToken))
    ensures var r := Evaluate(store, code, location);
      r.Ok? ==>
      var line := StatusLine(Text.Trim(AsString(Member(store, StoreNameKey)).value),
                             Shown(AsString(Member(Member(Member(Member(Member(store, PartsKey), code), MessageTypesKey), RegularKey), TitleKey))),
                             Shown(AsString(Member(Member(Member(store, PartsKey), code), QuoteKey))));
      if r.value.available then
        PickupInformation(Member(store, RetailStoreKey), location).Ok?
        && r.value.content == line + PickupInformation(Member(store, RetailStoreKey), location).value
      else
        r.value.content == line
    ensures Evaluate(store, code, location).Ok? <==>
      && store.Obj? && AsString(Member(store, StoreNameKey)).Some?
      && Member(store, PartsKey).Obj? && Member(Member(store, PartsKey), code).Obj?
      && Member(Member(Member(store, PartsKey), code), MessageTypesKey).Obj?
      && Member(Member(Member(Member(store, PartsKey), code), MessageTypesKey), RegularKey).Obj?
      && (Member(Member(Member(store, PartsKey), code), PickupDisplayKey) == Str(AvailableToken) ==>
            Member(store, RetailStoreKey).Obj? && Member(Member(store, RetailStoreKey), AddressKey).Obj?)
  {
    JudgeInventoryMeaning(store, code);
    PickupInformationMeaning(Member(store, RetailStoreKey), location);
  }

  /** The body of the store loop up to the push: status line from the
      trimmed store name, the device title and the status text, then the
      availability check, and for an available store the pickup information
      appended. Every missing piece along the way throws. */
  function Evaluate(store: Json, code: string, location: string): (r: Result<Report>)
  {
    var parts :- GetObject(store, PartsKey);
    // `store` is known to be an object from here on, and so is `part` once
    // read: the remaining string reads and the inventory check cannot throw.
    var name := AsString(Member(store, StoreNameKey));
    if name.None? then Thrown
    else
      var part :- GetObject(parts, code);
      var types :- GetObject(part, MessageTypesKey);
      var regular :- GetObject(types, RegularKey);
      var title :- GetString(regular, TitleKey);
      var quote := AsString(Member(part, QuoteKey));
      var line := StatusLine(Text.Trim(name.value), Shown(title), Shown(quote));
      var available := JudgeInventory(store, code).value;
      if available then
        var retail :- GetObject(store, RetailStoreKey);
        var info :- PickupInformation(retail, location);
        Ok(Report(line + info, true))
      else
        Ok(Report(line, false))
  }
}
