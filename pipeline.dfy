/**
 * The cleaning steps that both `removeFieldsFormURL` functions share once
 * redirection (and, in the older variant, cancelling) has been ruled out:
 * raw rules on the whole text, then field rules on the query and fragment
 * keys, then reassembly.
 */
module Pipeline {
  import opened Web
  import opened Tools
  import opened SearchParams

  /** The object `removeFieldsFormURL` returns. */
  datatype Outcome =
    | Redirect(url: string)                 // { redirect: true, url }
    | Cancel(url: string)                   // { cancel: true, url }
    | Cleaned(url: string, changes: bool)   // { changes, url }

  // ---------------------------------------------------------------------
  // Redirections and exceptions

  /** Whether regular expression `p` is usable and matches: an empty pattern is skipped. */
  predicate Fires(js: Js, p: string, url: string) {
    p != "" && js.test(p, url)
  }

  /** The position of the first pattern, in insertion order, that fires on `url`. */
  function FirstMatch(js: Js, pats: seq<string>, url: string): (r: Option<nat>)
    ensures r.Some? ==> r.value < |pats| && Fires(js, pats[r.value], url)
    ensures r.Some? ==> forall k :: 0 <= k < r.value ==> !Fires(js, pats[k], url)
    ensures r.None? ==> forall k :: 0 <= k < |pats| ==> !Fires(js, pats[k], url)
    decreases |pats|
  {
    if pats == [] then None
    else if Fires(js, pats[0], url) then Some(0)
    else match FirstMatch(js, pats[1..], url)
      case None => None
      case Some(k) => Some(k + 1)
  }

  /** Whether some exception pattern matches `url`. */
  predicate AnyMatch(js: Js, pats: seq<string>, url: string) {
    exists k :: 0 <= k < |pats| && js.test(pats[k], url)
  }

  /**
   * The `matchException` loop: stop as soon as one exception has matched.
   * It reads `result` before testing, so it is the disjunction of the tests.
   */
  method MatchAny(js: Js, pats: seq<string>, url: string) returns (result: bool)
    ensures result <==> AnyMatch(js, pats, url)
  {
    result := false;
    var k := 0;
    while k < |pats|
      invariant 0 <= k <= |pats|
      invariant result <==> exists j :: 0 <= j < k && js.test(pats[j], url)
    {
      if result {
        break;
      }
      result := js.test(pats[k], url);
      k := k + 1;
    }
  }

  /** The `getRedirection` loop up to the `break`: the index of the first firing redirection. */
  method FindRedirection(js: Js, pats: seq<string>, url: string) returns (r: Option<nat>)
    ensures r == FirstMatch(js, pats, url)
  {
    r := None;
    var k := 0;
    while k < |pats|
      invariant 0 <= k <= |pats|
      invariant FirstMatch(js, pats, url) == FirstFrom(js, pats, url, k)
    {
      if Fires(js, pats[k], url) {
        r := Some(k);
        FirstMatchAt(js, pats, url, k);
        return;
      }
      k := k + 1;
    }
  }

  /** `FirstMatch` when the first `k` patterns are already known not to fire. */
  function FirstFrom(js: Js, pats: seq<string>, url: string, k: nat): Option<nat>
    requires k <= |pats|
  {
    match FirstMatch(js, pats[k..], url)
    case None => None
    case Some(j) => Some(j + k)
  }

  lemma FirstMatchAt(js: Js, pats: seq<string>, url: string, k: nat)
    requires k < |pats| && Fires(js, pats[k], url)
    requires forall j :: 0 <= j < k ==> !Fires(js, pats[j], url)
    ensures FirstMatch(js, pats, url) == Some(k)
  {
    var r := FirstMatch(js, pats, url);
    assert r.Some?;
    assert !(r.value < k);
    assert !(r.value > k);
  }

  // ---------------------------------------------------------------------
  // Raw rules

  /**
   * Every raw rule in turn deleted from the whole text (a global,
   * case-insensitive replacement by nothing); the flag records whether
   * some step changed the text.
   */
  function RawPass(js: Js, raws: seq<string>, url: string): (r: (string, bool))
    ensures !r.1 ==> r.0 == url
    decreases |raws|
  {
    if raws == [] then (url, false)
    else
      var next := js.replaceAll(raws[0], url);
      var rest := RawPass(js, raws[1..], next);
      (rest.0, rest.1 || next != url)
  }

  /** With no raw rule matching, the raw pass changes nothing and reports no change. */
  lemma {:induction false} RawPassNoMatch(js: Js, raws: seq<string>, url: string)
    requires Lawful(js)
    requires forall k :: 0 <= k < |raws| ==> !js.test(raws[k], url)
    ensures RawPass(js, raws, url) == (url, false)
    decreases |raws|
  {
    if raws != [] {
      assert js.replaceAll(raws[0], url) == url;
      RawPassNoMatch(js, raws[1..], url);
    }
  }

  // ---------------------------------------------------------------------
  // Field rules

  /** The loop `for (const rule of rules)` around the live key loop, on one list. */
  function StripRules(js: Js, rules: seq<string>, ps: seq<Param>): (r: seq<Param>)
    ensures |r| <= |ps|
    decreases |rules|
  {
    if rules == [] then ps else StripRules(js, rules[1..], StripLive(js, rules[0], ps, 0))
  }

  /** No rule matches the key of `p`. */
  predicate Unmatched(js: Js, rules: seq<string>, key: string) {
    forall k :: 0 <= k < |rules| ==> !KeyMatches(js, rules[k], key)
  }

  /** The field rules keep every entry whose key no rule matches and invent nothing. */
  lemma {:induction false} StripRulesKeeps(js: Js, rules: seq<string>, ps: seq<Param>)
    ensures forall p :: p in StripRules(js, rules, ps) ==> p in ps
    ensures forall p :: p in ps && Unmatched(js, rules, p.0) ==> p in StripRules(js, rules, ps)
    decreases |rules|
  {
    if rules != [] {
      var next := StripLive(js, rules[0], ps, 0);
      StripLiveKeeps(js, rules[0], ps);
      StripRulesKeeps(js, rules[1..], next);
      forall p | p in ps && Unmatched(js, rules, p.0) ensures Unmatched(js, rules[1..], p.0) {
        forall k | 0 <= k < |rules[1..]| ensures !KeyMatches(js, rules[1..][k], p.0) {
          assert rules[1..][k] == rules[k + 1];
        }
      }
    }
  }

  /** With no key matching any rule, the field rules leave the list as it is. */
  lemma {:induction false} StripRulesNoMatch(js: Js, rules: seq<string>, ps: seq<Param>)
    requires forall k :: 0 <= k < |ps| ==> Unmatched(js, rules, ps[k].0)
    ensures StripRules(js, rules, ps) == ps
    decreases |rules|
  {
    if rules != [] {
      StripLiveNoMatch(js, rules[0], ps, 0);
      forall k | 0 <= k < |ps| ensures Unmatched(js, rules[1..], ps[k].0) {
        forall j | 0 <= j < |rules[1..]| ensures !KeyMatches(js, rules[1..][j], ps[k].0) {
          assert rules[1..][j] == rules[j + 1];
        }
      }
      StripRulesNoMatch(js, rules[1..], ps);
    }
  }

  // ---------------------------------------------------------------------
  // Reassembly

  /** The query part appended when the remaining fields serialise to something. */
  function QueryPart(js: Js, fields: seq<Param>): string {
    if js.serializeParams(fields) != "" then "?" + SearchParamsString(js, fields) else ""
  }

  /** The fragment part appended when the remaining fragments serialise to something. */
  function HashPart(js: Js, frags: seq<Param>): string {
    if js.serializeParams(frags) != "" then "#" + js.serializeParams(frags) else ""
  }

  /** The base followed by query and fragment, with the first `?&` and then the first `#&` collapsed. */
  function Reassemble(js: Js, domain: string, fields: seq<Param>, frags: seq<Param>): string {
    ReplaceFirst(ReplaceFirst(domain + QueryPart(js, fields) + HashPart(js, frags), "?&", "?"), "#&", "#")
  }

  /** A replacement whose pattern starts with a character the text lacks changes nothing. */
  lemma ReplaceAbsent(s: string, pat: string, replacement: string)
    requires pat != [] && pat[0] !in s
    ensures ReplaceFirst(s, pat, replacement) == s
  {
    forall j | 0 <= j ensures !OccursAt(s, pat, j) {
      if j + |pat| <= |s| {
        assert s[j..j + |pat|][0] == s[j];
      }
    }
  }

  /**
   * When no part holds `?` or `#` beyond its own leading mark and no part
   * starts with `&`, reassembly is plain concatenation; an empty query or
   * fragment adds no `?` or `#`.
   */
  lemma ReassemblePlain(js: Js, domain: string, fields: seq<Param>, frags: seq<Param>)
    requires '?' !in domain && '#' !in domain
    requires '?' !in SearchParamsString(js, fields) && '#' !in SearchParamsString(js, fields)
    requires '?' !in js.serializeParams(frags) && '#' !in js.serializeParams(frags)
    requires js.serializeParams(frags) == "" || js.serializeParams(frags)[0] != '&'
    requires SearchParamsString(js, fields) == "" || SearchParamsString(js, fields)[0] != '&'
    ensures Reassemble(js, domain, fields, frags) == domain + QueryPart(js, fields) + HashPart(js, frags)
  {
    var q, h := QueryPart(js, fields), HashPart(js, frags);
    var s := domain + q + h;
    forall j | 0 <= j ensures !OccursAt(s, "?&", j) && !OccursAt(s, "#&", j) {
      if j + 2 <= |s| {
        assert s[j..j + 2][0] == s[j] && s[j..j + 2][1] == s[j + 1];
        SplicedAt(domain, q, h, j);
      }
    }
    assert IndexOf(s, "?&") == None;
    assert IndexOf(s, "#&") == None;
  }

  /** Where a character of `d + q + h` comes from. */
  lemma SplicedAt(d: string, q: string, h: string, j: nat)
    requires j + 1 < |d + q + h|
    ensures j < |d| ==> (d + q + h)[j] == d[j]
    ensures |d| <= j < |d| + |q| ==> (d + q + h)[j] == q[j - |d|]
    ensures |d| + |q| <= j ==> (d + q + h)[j] == h[j - |d| - |q|]
    ensures j + 1 < |d| ==> (d + q + h)[j + 1] == d[j + 1]
    ensures |d| <= j + 1 < |d| + |q| ==> (d + q + h)[j + 1] == q[j + 1 - |d|]
    ensures |d| + |q| <= j + 1 ==> (d + q + h)[j + 1] == h[j + 1 - |d| - |q|]
  {
  }

  // ---------------------------------------------------------------------
  // Everything after redirection and cancelling

  /**
   * What `removeFieldsFormURL` returns once no redirection applies: raw
   * rules; `new URL` on the result (it may throw); query and fragment
   * entries; the URL without query and fragment (it may throw as well);
   * and, only when query or fragment is non-empty, field stripping and
   * reassembly.
   */
  function CleanTail(js: Js, rules: seq<string>, raws: seq<string>, url: string): Fallible<Outcome> {
    var raw := RawPass(js, raws, url);
    match js.parse(raw.0)
    case None => Throws(TypeError)
    case Some(u) =>
      var fields := js.parseParams(DropMark(u.Search()));
      var frags := js.parseParams(DropMark(u.Hash()));
      match UrlWithoutParamsAndHashSpec(js, u)
      case Throws(e) => Throws(e)
      case Ok(d) =>
        if js.serializeParams(fields) != "" || js.serializeParams(frags) != "" then
          var fields' := StripRules(js, rules, fields);
          var frags' := StripRules(js, rules, frags);
          Ok(Cleaned(Reassemble(js, d.Href(), fields', frags'),
                     raw.1 || |fields'| < |fields| || |frags'| < |frags|))
        else
          Ok(Cleaned(raw.0, raw.1))
  }

  /** The query and fragment entries of a parsed URL. */
  function Entries(js: Js, u: Url): (seq<Param>, seq<Param>) {
    (js.parseParams(DropMark(u.Search())), js.parseParams(DropMark(u.Hash())))
  }

  /**
   * Nothing to remove means nothing reported: when no raw rule matches and
   * no field rule matches any query or fragment key, the result says
   * `changes: false`.
   */
  lemma CleanTailNoChanges(js: Js, rules: seq<string>, raws: seq<string>, url: string)
    requires Lawful(js)
    requires forall k :: 0 <= k < |raws| ==> !js.test(raws[k], url)
    requires js.parse(url).Some?
    requires var e := Entries(js, js.parse(url).value);
             (forall k :: 0 <= k < |e.0| ==> Unmatched(js, rules, e.0[k].0)) &&
             (forall k :: 0 <= k < |e.1| ==> Unmatched(js, rules, e.1[k].0))
    ensures CleanTail(js, rules, raws, url).Ok? ==> !CleanTail(js, rules, raws, url).value.changes
  {
    RawPassNoMatch(js, raws, url);
    var e := Entries(js, js.parse(url).value);
    StripRulesNoMatch(js, rules, e.0);
    StripRulesNoMatch(js, rules, e.1);
  }

  /** With neither query nor fragment entries, the text after the raw rules is returned as it is. */
  lemma CleanTailNoParams(js: Js, rules: seq<string>, raws: seq<string>, url: string)
    requires Lawful(js)
    requires js.parse(RawPass(js, raws, url).0).Some?
    requires Entries(js, js.parse(RawPass(js, raws, url).0).value) == ([], [])
    requires UrlWithoutParamsAndHashSpec(js, js.parse(RawPass(js, raws, url).0).value).Ok?
    ensures CleanTail(js, rules, raws, url) == Ok(Cleaned(RawPass(js, raws, url).0, RawPass(js, raws, url).1))
  {
  }

  /**
   * `changes` is set exactly when a raw rule altered the text or a field
   * rule deleted an entry (each deletion removes at least one entry).
   */
  lemma CleanTailChangesIff(js: Js, rules: seq<string>, raws: seq<string>, url: string)
    requires Lawful(js)
    requires CleanTail(js, rules, raws, url).Ok?
    ensures var raw := RawPass(js, raws, url);
            var e := Entries(js, js.parse(raw.0).value);
            CleanTail(js, rules, raws, url).value.changes <==>
              raw.1 || StripRules(js, rules, e.0) != e.0 || StripRules(js, rules, e.1) != e.1
  {
    var raw := RawPass(js, raws, url);
    var e := Entries(js, js.parse(raw.0).value);
    if js.serializeParams(e.0) == "" && js.serializeParams(e.1) == "" {
      StripEmptySerialisation(js, rules, e.0);
      StripEmptySerialisation(js, rules, e.1);
    } else {
      StripRulesShorter(js, rules, e.0);
      StripRulesShorter(js, rules, e.1);
    }
  }

  lemma StripEmptySerialisation(js: Js, rules: seq<string>, ps: seq<Param>)
    requires Lawful(js) && js.serializeParams(ps) == ""
    ensures StripRules(js, rules, ps) == ps
  {
    assert ps == [];
  }

  /** The field rules either leave the list alone or make it shorter. */
  lemma {:induction false} StripRulesShorter(js: Js, rules: seq<string>, ps: seq<Param>)
    ensures StripRules(js, rules, ps) != ps ==> |StripRules(js, rules, ps)| < |ps|
    decreases |rules|
  {
    if rules != [] {
      var next := StripLive(js, rules[0], ps, 0);
      StripRulesShorter(js, rules[1..], next);
      if next == ps {
      } else {
        StripLiveUnchangedIff(js, rules[0], ps);
        var k :| 0 <= k < |ps| && KeyMatches(js, rules[0], ps[k].0);
        StripLiveShrinks(js, rules[0], ps, 0, k);
      }
    }
  }

  // ---------------------------------------------------------------------
  // The imperative steps

  /** The raw-rule loop: each rule replaced away in turn, noting any change. */
  method ApplyRawRules(js: Js, rawRules: seq<string>, pureUrl: string) returns (url: string, changes: bool)
    ensures (url, changes) == RawPass(js, rawRules, pureUrl)
  {
    url := pureUrl;
    changes := false;
    for i := 0 to |rawRules|
      invariant RawPass(js, rawRules, pureUrl) == (RawPass(js, rawRules[i..], url).0, RawPass(js, rawRules[i..], url).1 || changes)
    {
      assert rawRules[i..][1..] == rawRules[i + 1..];
      var beforeReplace := url;
      url := js.replaceAll(rawRules[i], url);
      if beforeReplace != url {
        changes := true;
      }
    }
    assert rawRules[|rawRules|..] == [];
  }

  /** The rule loop with its two key loops; `changes` records whether any entry was deleted. */
  method ApplyFieldRules(js: Js, rules: seq<string>, fields0: seq<Param>, fragments0: seq<Param>)
    returns (fields: seq<Param>, fragments: seq<Param>, changes: bool)
    ensures fields == StripRules(js, rules, fields0)
    ensures fragments == StripRules(js, rules, fragments0)
    ensures changes <==> |fields| < |fields0| || |fragments| < |fragments0|
  {
    fields, fragments, changes := fields0, fragments0, false;
    for k := 0 to |rules|
      invariant StripRules(js, rules, fields0) == StripRules(js, rules[k..], fields)
      invariant StripRules(js, rules, fragments0) == StripRules(js, rules[k..], fragments)
      invariant |fields| <= |fields0| && |fragments| <= |fragments0|
      invariant changes <==> |fields| < |fields0| || |fragments| < |fragments0|
    {
      assert rules[k..][1..] == rules[k + 1..];
      var fieldsChanged, fragmentsChanged;
      fields, fieldsChanged := StripKeys(js, rules[k], fields);
      fragments, fragmentsChanged := StripKeys(js, rules[k], fragments);
      if fieldsChanged || fragmentsChanged {
        changes := true;
      }
    }
    assert rules[|rules|..] == [];
  }

  /** Reassembly as written: base, `?` and query, `#` and fragment, then the two collapses. */
  method Rebuild(js: Js, domain: string, fields: seq<Param>, fragments: seq<Param>) returns (url: string)
    ensures url == Reassemble(js, domain, fields, fragments)
  {
    var finalURL := domain;
    if js.serializeParams(fields) != "" {
      var query := UrlSearchParamsToString(js, fields);
      finalURL := finalURL + "?" + query;
    }
    if js.serializeParams(fragments) != "" {
      finalURL := finalURL + "#" + js.serializeParams(fragments);
    }
    assert finalURL == domain + QueryPart(js, fields) + HashPart(js, fragments);
    url := ReplaceFirst(ReplaceFirst(finalURL, "?&", "?"), "#&", "#");
  }

  /**
   * The statements of `removeFieldsFormURL` after redirection: the raw
   * rule loop, the URL and entry extraction, the rule loop, and reassembly.
   */
  method CleanFields(js: Js, rules: seq<string>, rawRules: seq<string>, pureUrl: string) returns (r: Fallible<Outcome>)
    ensures r == CleanTail(js, rules, rawRules, pureUrl)
  {
    var url, changes := ApplyRawRules(js, rawRules, pureUrl);
    var parsed := js.parse(url);
    if parsed.None? {
      return Throws(TypeError);
    }
    var urlObject := parsed.value;
    var fields := js.parseParams(DropMark(urlObject.Search()));
    var fragments := js.parseParams(DropMark(urlObject.Hash()));
    var domainUrl := UrlWithoutParamsAndHash(js, urlObject);
    if domainUrl.Throws? {
      return Throws(domainUrl.error);
    }
    var domain := domainUrl.value.Href();
    if js.serializeParams(fields) != "" || js.serializeParams(fragments) != "" {
      var fields', fragments', deleted := ApplyFieldRules(js, rules, fields, fragments);
      url := Rebuild(js, domain, fields', fragments');
      changes := changes || deleted;
    }
    return Ok(Cleaned(url, changes));
  }
}
