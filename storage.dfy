/**
 * The in-memory settings record of lib/storage.ts: the defaults it is
 * initialised with, how a value read back from disk is stored under its
 * key, how a stored value is turned back into what is written to disk,
 * the migration of legacy rule URLs, and the hash status message.
 */
module StorageLib {
  import opened Web

  /** A JavaScript value as it is kept in the record (numbers are integers here). */
  datatype Value =
    | Null
    | Bool(b: bool)
    | Num(n: int)
    | Str(s: string)
    | Arr(items: seq<Value>)
    | Obj(fields: seq<(string, Value)>)

  /** `JSON.parse` (`None`: it throws) and `JSON.stringify`. */
  datatype Json = Json(parse: string -> Option<Value>, stringify: Value -> string)

  /** Parsing what was stringified gives the value back. */
  ghost predicate Lawful(json: Json) {
    forall v :: json.parse(json.stringify(v)) == Some(v)
  }

  /** The browser the defaults are chosen for. */
  datatype Browser = Firefox | Chrome | OtherBrowser

  // ---------------------------------------------------------------------
  // String conversion

  /** The decimal digits of a natural number. */
  function Digits(n: nat): (r: string)
    ensures |r| >= 1
    ensures forall c :: c in r ==> '0' <= c <= '9'
    decreases n
  {
    var d := ['0' + (n % 10) as char];
    if n < 10 then d else Digits(n / 10) + d
  }

  /** `String(n)` for an integer. */
  function Decimal(n: int): string {
    if n < 0 then "-" + Digits(-n) else Digits(n)
  }

  /**
   * `String(v)`: arrays join their elements' strings with `,` (a null
   * element giving the empty string) and objects give `[object Object]`.
   */
  function Text(v: Value): string
    decreases v
  {
    match v
    case Null => "null"
    case Bool(b) => if b then "true" else "false"
    case Num(n) => Decimal(n)
    case Str(s) => s
    case Arr(items) =>
      Join(seq(|items|, i requires 0 <= i < |items| => if items[i].Null? then "" else Text(items[i])), ",")
    case Obj(_) => "[object Object]"
  }

  /** An array of strings. */
  function Strs(parts: seq<string>): (r: Value)
    ensures r.Arr? && |r.items| == |parts|
    ensures forall i :: 0 <= i < |parts| ==> r.items[i] == Str(parts[i])
  {
    Arr(seq(|parts|, i requires 0 <= i < |parts| => Str(parts[i])))
  }

  /** `v.toString()`: throws on `null`. */
  function ToText(v: Value): (r: Fallible<string>)
    ensures r.Throws? <==> v.Null?
    ensures v.Str? ==> r == Ok(v.s)
  {
    if v.Null? then Throws(TypeError) else Ok(Text(v))
  }

  // ---------------------------------------------------------------------
  // replaceOldURLs and storeHashStatus

  const RulesHash := "https://rules2.clearurls.xyz/rules.minify.hash"
  const RulesData := "https://rules2.clearurls.xyz/data.minify.json"
  const GitLabHash := "https://kevinroebert.gitlab.io/ClearUrls/data/rules.minify.hash"
  const GitLabData := "https://kevinroebert.gitlab.io/ClearUrls/data/data.minify.json"

  /** The legacy locations of the hash and the rules file, each with the one that replaced it. */
  const Relocated: map<string, string> := map[
    "https://raw.githubusercontent.com/KevinRoebert/ClearUrls/master/data/rules.hash?flush_cache=true" := GitLabHash,
    "https://raw.githubusercontent.com/KevinRoebert/ClearUrls/master/data/data.json?flush_cache=true" := GitLabData,
    "https://gitlab.com/KevinRoebert/ClearUrls/raw/master/data/rules.hash" := GitLabHash,
    "https://gitlab.com/KevinRoebert/ClearUrls/raw/master/data/data.json" := GitLabData,
    "https://gitlab.com/KevinRoebert/ClearUrls/-/jobs/artifacts/master/raw/rules.min.hash?job=hash%20rules" := GitLabHash,
    "https://gitlab.com/KevinRoebert/ClearUrls/raw/master/data/data.min.json" := GitLabData,
    "https://gitlab.com/KevinRoebert/ClearUrls/raw/master/data/data.minify.json" := GitLabData,
    "https://gitlab.com/KevinRoebert/ClearUrls/-/jobs/artifacts/master/raw/data.minify.json?job=hash%20rules" := GitLabData,
    "https://gitlab.com/KevinRoebert/ClearUrls/-/jobs/artifacts/master/raw/rules.minify.hash?job=hash%20rules" := GitLabHash,
    GitLabData := RulesData,
    GitLabHash := RulesHash
  ]

  /** `replaceOldURLs(url)`: a listed legacy location is replaced, anything else kept. */
  function ReplaceOldURLs(url: string): (r: string)
    ensures url !in Relocated ==> r == url
    ensures url in Relocated ==> r == Relocated[url]
  {
    if url in Relocated then Relocated[url] else url
  }

  /** `storeHashStatus(code)`: the message key stored as `hashStatus`; 4 and unknown codes share one. */
  function HashStatus(code: int): (r: string)
    ensures code in {1, 2, 3, 5} ==> r == "hash_status_code_" + Decimal(code)
    ensures code !in {1, 2, 3, 5} ==> r == "hash_status_code_4"
  {
    match code
    case 1 => "hash_status_code_1"
    case 2 => "hash_status_code_2"
    case 3 => "hash_status_code_3"
    case 5 => "hash_status_code_5"
    case _ => "hash_status_code_4"
  }

  // ---------------------------------------------------------------------
  // setData and storageDataAsString

  /** The keys whose values are kept parsed and written to disk as JSON text. */
  predicate IsJsonKey(key: string) {
    key == "ClearURLsData" || key == "log"
  }

  /** The keys holding the location of the hash or of the rules file. */
  predicate IsURLKey(key: string) {
    key == "hashURL" || key == "ruleURL"
  }

  /**
   * What `setData(key, value)` stores: JSON keys the parse of the value's
   * string, URL keys the migrated URL (a value that is not a string matches
   * no case and is kept), `types` the comma-split string (a value that is
   * not a string has no `split`), every other key the value itself.
   */
  function Stored(json: Json, key: string, value: Value): Fallible<Value> {
    if IsJsonKey(key) then
      match json.parse(Text(value))
      case None => Throws(SyntaxError)
      case Some(v) => Ok(v)
    else if IsURLKey(key) then
      if value.Str? then Ok(Str(ReplaceOldURLs(value.s))) else Ok(value)
    else if key == "types" then
      if value.Str? then Ok(Strs(Split(value.s, ','))) else Throws(TypeError)
    else Ok(value)
  }

  /**
   * `storageDataAsString(key)` on the record `data`: the JSON text for JSON
   * keys, the comma-joined list for `types`, the value itself otherwise;
   * `None` for `undefined`.
   */
  function AsString(json: Json, data: map<string, Value>, key: string): Fallible<Option<Value>> {
    if IsJsonKey(key) then
      if key in data then Ok(Some(Str(json.stringify(data[key])))) else Ok(None)
    else if key == "types" then
      if key !in data then Throws(TypeError)
      else
        match ToText(data[key])
        case Throws(e) => Throws(e)
        case Ok(s) => Ok(Some(Str(s)))
    else if key in data then Ok(Some(data[key])) else Ok(None)
  }

  /** The assignments of `initSettings`, in order; `types` and `pingRequestTypes` only on Firefox and Chrome. */
  function DefaultEntries(browser: Browser): seq<(string, Value)> {
    var common := [
      ("ClearURLsData", Arr([])),
      ("dataHash", Str("")),
      ("badgedStatus", Bool(true)),
      ("globalStatus", Bool(true)),
      ("hashStatus", Str("error")),
      ("loggingStatus", Bool(false)),
      ("log", Obj([("log", Arr([]))])),
      ("statisticsStatus", Bool(true)),
      ("badged_color", Str("#ffa500")),
      ("hashURL", Str(RulesHash)),
      ("ruleURL", Str(RulesData)),
      ("contextMenuEnabled", Bool(true)),
      ("historyListenerEnabled", Bool(true)),
      ("localHostsSkipping", Bool(true)),
      ("referralMarketing", Bool(true)),
      ("logLimit", Num(100)),
      ("domainBlocking", Bool(true)),
      ("pingBlocking", Bool(true)),
      ("eTagFiltering", Bool(false)),
      ("watchDogErrorCount", Num(0))
    ];
    match browser
    case Firefox =>
      common + [
        ("types", Strs(["font", "image", "imageset", "main_frame", "media", "object", "object_subrequest",
                        "other", "script", "stylesheet", "sub_frame", "websocket", "xml_dtd",
                        "xmlhttprequest", "xslt"])),
        ("pingRequestTypes", Strs(["ping", "beacon"]))]
    case Chrome =>
      common + [
        ("types", Strs(["main_frame", "sub_frame", "stylesheet", "script", "image", "font", "object",
                        "xmlhttprequest", "ping", "csp_report", "media", "websocket", "other"])),
        ("pingRequestTypes", Strs(["ping"]))]
    case OtherBrowser => common
  }

  /** Assigning each entry to the record in turn (a later entry for the same key wins). */
  function Assign(data: map<string, Value>, entries: seq<(string, Value)>): (r: map<string, Value>)
    ensures forall k :: k in r <==> k in data || exists i :: 0 <= i < |entries| && entries[i].0 == k
    decreases |entries|
  {
    if entries == [] then data
    else
      var r := Assign(data[entries[0].0 := entries[0].1], entries[1..]);
      assert forall i :: 0 < i < |entries| ==> entries[i] == entries[1..][i - 1];
      r
  }

  /**
   * The `forEach` of `initStorage` over the supplied items, from the record
   * `data`: each item is stored in turn, and the first that throws ends it.
   */
  function Load(json: Json, data: map<string, Value>, items: seq<(string, Value)>): Fallible<map<string, Value>>
    decreases |items|
  {
    if items == [] then Ok(data)
    else
      match Stored(json, items[0].0, items[0].1)
      case Throws(e) => Throws(e)
      case Ok(v) => Load(json, data[items[0].0 := v], items[1..])
  }

  /** Loading one more item continues from the record the shorter load left. */
  lemma {:induction false} LoadExtend(json: Json, data: map<string, Value>, items: seq<(string, Value)>, item: (string, Value))
    ensures Load(json, data, items).Ok? ==>
              Load(json, data, items + [item]) ==
                match Stored(json, item.0, item.1)
                case Throws(e) => Throws(e)
                case Ok(v) => Ok(Load(json, data, items).value[item.0 := v])
    ensures Load(json, data, items).Throws? ==> Load(json, data, items + [item]) == Load(json, data, items)
    decreases |items|
  {
    if items == [] {
      assert [item][1..] == [];
    } else {
      assert (items + [item])[0] == items[0] && (items + [item])[1..] == items[1..] + [item];
      match Stored(json, items[0].0, items[0].1)
      case Throws(e) =>
      case Ok(v) => LoadExtend(json, data[items[0].0 := v], items[1..], item);
    }
  }

  /** The keys of the supplied items. */
  function ItemKeys(items: seq<(string, Value)>): (r: seq<string>)
    ensures |r| == |items|
    ensures forall i :: 0 <= i < |items| ==> r[i] == items[i].0
  {
    seq(|items|, i requires 0 <= i < |items| => items[i].0)
  }

  /** The keys of an object's entries are distinct. */
  predicate DistinctKeys(items: seq<(string, Value)>) {
    forall i, j :: 0 <= i < j < |items| ==> items[i].0 != items[j].0
  }

  class Storage {
    var data: map<string, Value>   // `storage`

    constructor()
      ensures data == map[]
    {
      data := map[];
    }

    /** `getData(key)`: `None` for `undefined`. */
    function GetData(key: string): (r: Option<Value>)
      reads this
      ensures r.Some? <==> key in data
      ensures r.Some? ==> r.value == data[key]
    {
      if key in data then Some(data[key]) else None
    }

    /** `storageDataAsString(key)`. */
    function StorageDataAsString(json: Json, key: string): (r: Fallible<Option<Value>>)
      reads this
      ensures r.Throws? ==> key == "types" && (key !in data || data[key].Null?)
      ensures r.Ok? && r.value.None? <==> key != "types" && key !in data
    {
      AsString(json, data, key)
    }

    /** `setData(key, value)`: only `key` changes, and nothing does when storing throws. */
    method SetData(json: Json, key: string, value: Value) returns (thrown: Option<Error>)
      modifies this
      ensures Stored(json, key, value).Ok? ==> thrown.None? && data == old(data)[key := Stored(json, key, value).value]
      ensures Stored(json, key, value).Throws? ==> thrown == Some(Stored(json, key, value).error) && data == old(data)
    {
      match Stored(json, key, value)
      case Throws(e) => thrown := Some(e);
      case Ok(v) => data := data[key := v]; thrown := None;
    }

    /** `storeHashStatus(code)`. */
    method StoreHashStatus(code: int)
      modifies this
      ensures data == old(data)["hashStatus" := Str(HashStatus(code))]
    {
      data := data["hashStatus" := Str(HashStatus(code))];
    }

    /** `initSettings()`: every default is assigned over what the record holds. */
    method InitSettings(browser: Browser)
      modifies this
      ensures data == Assign(old(data), DefaultEntries(browser))
    {
      data := Assign(data, DefaultEntries(browser));
    }

    /**
     * `initStorage(items)`: the defaults first, then each supplied item in
     * order through `setData`; an item that throws ends it there.
     */
    method InitStorage(json: Json, browser: Browser, items: seq<(string, Value)>) returns (thrown: Option<Error>)
      modifies this
      ensures var r := Load(json, Assign(old(data), DefaultEntries(browser)), items);
              (r.Ok? ==> thrown.None? && data == r.value) && (r.Throws? ==> thrown == Some(r.error))
      ensures thrown.Some? ==>
                exists i :: 0 <= i < |items| && Stored(json, items[i].0, items[i].1).Throws?
                         && Load(json, Assign(old(data), DefaultEntries(browser)), items[..i]) == Ok(data)
    {
      InitSettings(browser);
      thrown := None;
      if items != [] {
        thrown := SetItems(json, items);
      }
    }

    /** The `forEach` of `initStorage`: `setData` on each item in order, up to the first throw. */
    method SetItems(json: Json, items: seq<(string, Value)>) returns (thrown: Option<Error>)
      modifies this
      ensures var r := Load(json, old(data), items);
              (r.Ok? ==> thrown.None? && data == r.value) && (r.Throws? ==> thrown == Some(r.error))
      ensures thrown.Some? ==>
                exists i :: 0 <= i < |items| && Stored(json, items[i].0, items[i].1).Throws?
                         && Load(json, old(data), items[..i]) == Ok(data)
    {
      thrown := None;
      ghost var start := data;
      for i := 0 to |items|
        invariant thrown.None?
        invariant Load(json, start, items) == Load(json, data, items[i..])
        invariant Load(json, start, items[..i]) == Ok(data)
      {
        assert items[i..][0] == items[i] && items[i..][1..] == items[i + 1..];
        LoadExtend(json, start, items[..i], items[i]);
        assert items[..i + 1] == items[..i] + [items[i]];
        thrown := SetData(json, items[i].0, items[i].1);
        if thrown.Some? {
          return;
        }
      }
      assert items[|items|..] == [];
    }
  }

  // ---------------------------------------------------------------------
  // Properties

  /**
   * Migration settles after two steps: a legacy location goes to the
   * GitLab one, that goes to the current one, which stays.
   */
  lemma ReplaceOldURLsSettles(url: string)
    ensures ReplaceOldURLs(ReplaceOldURLs(ReplaceOldURLs(url))) == ReplaceOldURLs(ReplaceOldURLs(url))
    ensures url in Relocated ==> ReplaceOldURLs(ReplaceOldURLs(url)) in {RulesHash, RulesData}
  {
    assert RulesHash !in Relocated && RulesData !in Relocated;
    assert forall u :: u in Relocated ==> Relocated[u] in {GitLabHash, GitLabData, RulesHash, RulesData};
  }

  /** Whether `storageDataAsString` then `setData` gives the stored value back. */
  predicate Reloadable(key: string, v: Value) {
    if IsJsonKey(key) then true
    else if IsURLKey(key) then !v.Str? || ReplaceOldURLs(v.s) == v.s
    else if key == "types" then
      v.Arr? && |v.items| >= 1 && forall i :: 0 <= i < |v.items| ==> v.items[i].Str? && ',' !in v.items[i].s
    else true
  }

  /**
   * Writing a value to disk and loading it back restores it: JSON keys by
   * the JSON round trip, `types` when it is a non-empty list of strings
   * without commas, URL keys when no migration applies, other keys verbatim.
   */
  lemma ReloadRestores(json: Json, data: map<string, Value>, key: string)
    requires Lawful(json) && key in data && Reloadable(key, data[key])
    ensures AsString(json, data, key).Ok? && AsString(json, data, key).value.Some?
    ensures Stored(json, key, AsString(json, data, key).value.value) == Ok(data[key])
  {
    var v := data[key];
    if IsJsonKey(key) {
      assert Text(Str(json.stringify(v))) == json.stringify(v);
    } else if key == "types" {
      var parts := seq(|v.items|, i requires 0 <= i < |v.items| => v.items[i].s);
      var texts := seq(|v.items|, i requires 0 <= i < |v.items| => if v.items[i].Null? then "" else Text(v.items[i]));
      assert texts == parts;
      assert v == Strs(parts);
      assert Text(v) == Join(parts, ",");
      SplitJoin(parts, ',');
    }
  }

  /** A types list with a comma in an element does not survive the reload: it comes back longer. */
  lemma TypesCommaSplits(json: Json)
    ensures var data := map["types" := Strs(["a,b"])];
            Stored(json, "types", AsString(json, data, "types").value.value) == Ok(Strs(["a", "b"]))
  {
    var data := map["types" := Strs(["a,b"])];
    assert Text(data["types"]) == "a,b";
    assert Split("a,b", ',') == ["a", "b"] by {
      assert "a" + ",b" == "a,b";
      SplitPrefix("a", ",b", ',');
      assert ",b"[1..] == "b";
      SplitPlain("b", ',');
    }
  }

  /** An empty types list does not survive either: `"".split(",")` is `[""]`. */
  lemma TypesEmptyGrows(json: Json)
    ensures var data := map["types" := Strs([])];
            Stored(json, "types", AsString(json, data, "types").value.value) == Ok(Strs([""]))
  {
    var data := map["types" := Strs([])];
    assert Text(data["types"]) == "";
  }

  /**
   * With distinct keys, loading that succeeds leaves each supplied key with
   * what `setData` stores for its item.
   */
  lemma {:induction false} LoadSuppliedWin(json: Json, data: map<string, Value>, items: seq<(string, Value)>, i: nat)
    requires DistinctKeys(items) && i < |items|
    requires Load(json, data, items).Ok?
    ensures Stored(json, items[i].0, items[i].1).Ok?
    ensures items[i].0 in Load(json, data, items).value
    ensures Load(json, data, items).value[items[i].0] == Stored(json, items[i].0, items[i].1).value
    decreases i
  {
    var v := Stored(json, items[0].0, items[0].1).value;
    var rest := items[1..];
    if i == 0 {
      assert forall j :: 0 <= j < |rest| ==> rest[j].0 == items[j + 1].0 != items[0].0;
      LoadKeeps(json, data[items[0].0 := v], rest, items[0].0);
    } else {
      assert DistinctKeys(rest) by {
        forall j, j' | 0 <= j < j' < |rest| ensures rest[j].0 != rest[j'].0 {
          assert rest[j] == items[j + 1] && rest[j'] == items[j' + 1];
        }
      }
      assert rest[i - 1] == items[i];
      LoadSuppliedWin(json, data[items[0].0 := v], rest, i - 1);
    }
  }

  /** A key no item names keeps its value through loading. */
  lemma {:induction false} LoadKeeps(json: Json, data: map<string, Value>, items: seq<(string, Value)>, key: string)
    requires Load(json, data, items).Ok?
    requires forall i :: 0 <= i < |items| ==> items[i].0 != key
    ensures key in Load(json, data, items).value <==> key in data
    ensures key in data ==> Load(json, data, items).value[key] == data[key]
    decreases |items|
  {
    if items != [] {
      var v := Stored(json, items[0].0, items[0].1).value;
      assert forall i :: 0 <= i < |items[1..]| ==> items[1..][i] == items[i + 1];
      LoadKeeps(json, data[items[0].0 := v], items[1..], key);
    }
  }

  /** After `initSettings` the extension is on. */
  lemma DefaultGlobalStatus(data: map<string, Value>, browser: Browser)
    ensures var d := Assign(data, DefaultEntries(browser));
            "globalStatus" in d && d["globalStatus"] == Bool(true)
  {
    AssignLast(data, DefaultEntries(browser), 3);
  }

  /** After `initSettings` cancelling whole domains is enabled. */
  lemma DefaultDomainBlocking(data: map<string, Value>, browser: Browser)
    ensures var d := Assign(data, DefaultEntries(browser));
            "domainBlocking" in d && d["domainBlocking"] == Bool(true)
  {
    AssignLast(data, DefaultEntries(browser), 16);
  }

  /** After `initSettings` ping blocking is enabled. */
  lemma DefaultPingBlocking(data: map<string, Value>, browser: Browser)
    ensures var d := Assign(data, DefaultEntries(browser));
            "pingBlocking" in d && d["pingBlocking"] == Bool(true)
  {
    AssignLast(data, DefaultEntries(browser), 17);
  }

  /** After `initSettings` referral-marketing rules are applied. */
  lemma DefaultReferralMarketing(data: map<string, Value>, browser: Browser)
    ensures var d := Assign(data, DefaultEntries(browser));
            "referralMarketing" in d && d["referralMarketing"] == Bool(true)
  {
    AssignLast(data, DefaultEntries(browser), 14);
  }

  /** An entry no later entry overrides is what the record holds. */
  lemma {:induction false} AssignLast(data: map<string, Value>, entries: seq<(string, Value)>, i: nat)
    requires i < |entries|
    requires forall j :: i < j < |entries| ==> entries[j].0 != entries[i].0
    ensures entries[i].0 in Assign(data, entries) && Assign(data, entries)[entries[i].0] == entries[i].1
    decreases i
  {
    var rest := entries[1..];
    if i == 0 {
      AssignKeeps(data[entries[0].0 := entries[0].1], rest, entries[0].0);
    } else {
      assert rest[i - 1] == entries[i];
      assert forall j :: i - 1 < j < |rest| ==> rest[j] == entries[j + 1];
      AssignLast(data[entries[0].0 := entries[0].1], rest, i - 1);
    }
  }

  /** A key no entry names keeps its value. */
  lemma {:induction false} AssignKeeps(data: map<string, Value>, entries: seq<(string, Value)>, key: string)
    requires key in data
    requires forall j :: 0 <= j < |entries| ==> entries[j].0 != key
    ensures Assign(data, entries)[key] == data[key]
    decreases |entries|
  {
    if entries != [] {
      assert forall j :: 0 <= j < |entries[1..]| ==> entries[1..][j] == entries[j + 1];
      AssignKeeps(data[entries[0].0 := entries[0].1], entries[1..], key);
    }
  }
}
