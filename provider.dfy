/**
 * The library provider (lib/provider.ts): a named site pattern with five
 * rule families, each an insertion-ordered set of regular expressions.
 */
module ProviderLib {
  import opened Web
  import opened OrderedSets
  import opened Tools
  import opened Pipeline

  /** One provider of the rules file; a missing list is empty, a missing flag false. */
  datatype SerializedProvider = SerializedProvider(
    urlPattern: string,
    exceptions: seq<string>,
    rawRules: seq<string>,
    redirections: seq<string>,
    referralMarketing: seq<string>,
    rules: seq<string>,
    completeProvider: bool,
    forceRedirection: bool)

  /** What the cleaning of one URL reads from a provider. */
  datatype RuleSet = RuleSet(
    urlPattern: string,
    exceptions: seq<string>,
    rules: seq<string>,          // the active field rules, as getRules returns them
    rawRules: seq<string>,
    redirections: seq<string>)

  /** The field rules in force: with referral marketing blocked, the referral rules are folded in. */
  function Active(rules: seq<string>, referral: seq<string>, referralMarketing: bool): seq<string> {
    if !referralMarketing then Union(rules, referral) else rules
  }

  /** The rule set of a provider freshly built from `p`. */
  function Built(p: SerializedProvider, referralMarketing: bool): RuleSet {
    var rules := AddAll(if p.completeProvider then [".*"] else [], p.rules);
    RuleSet(p.urlPattern, AddAll([], p.exceptions),
            Active(rules, AddAll([], p.referralMarketing), referralMarketing),
            AddAll([], p.rawRules), AddAll([], p.redirections))
  }

  /** `matchURL`: the site pattern matches and no exception does. */
  predicate Matches(js: Js, s: RuleSet, url: string) {
    js.test(s.urlPattern, url) && !AnyMatch(js, s.exceptions, url)
  }

  /**
   * The value of `getRedirection`: capture group 1 of the first firing
   * redirection, unless that group is undefined or empty (`|| null`).
   */
  function Redirection(js: Js, pats: seq<string>, url: string): Option<string> {
    match FirstMatch(js, pats, url)
    case None => None
    case Some(k) =>
      match js.capture1(pats[k], url)
      case Some(c) => if c != "" then Some(c) else None
      case None => None
  }

  /** What `removeFieldsFormURL(url)` returns or throws, given the provider's rules. */
  function RemoveFields(js: Js, s: RuleSet, url: string): Fallible<Outcome> {
    match js.parse(url)
    case None => Throws(TypeError)
    case Some(_) =>
      match Redirection(js, s.redirections, url)
      case Some(re) =>
        (match DecodedURL(re)
         case Throws(e) => Throws(e)
         case Ok(target) => Ok(Redirect(target)))
      case None => CleanTail(js, s.rules, s.rawRules, url)
  }

  /** The fields of a provider other than its field rules. */
  type Frame = (string, string, seq<string>, seq<string>, seq<string>, seq<string>, bool)

  class Provider {
    var name: string
    var urlPattern: string
    var rules: seq<string>          // enabled_rules
    var exceptions: seq<string>     // enabled_exceptions
    var redirections: seq<string>   // enabled_redirections
    var rawRules: seq<string>       // enabled_rawRules
    var referralRules: seq<string>  // enabled_referralMarketing
    var referralMarketing: bool

    /** Each family is a set: the keys of a record are distinct. */
    ghost predicate Valid()
      reads this
    {
      NoDup(rules) && NoDup(exceptions) && NoDup(redirections) && NoDup(rawRules) && NoDup(referralRules)
    }

    function ActiveRules(): seq<string>
      reads this
    {
      Active(rules, referralRules, referralMarketing)
    }

    /** Every field but the field rules: what `getRules`, and so the cleaning, never changes. */
    function Untouched(): Frame
      reads this
    {
      (name, urlPattern, exceptions, redirections, rawRules, referralRules, referralMarketing)
    }

    function Snapshot(): RuleSet
      reads this
    {
      RuleSet(urlPattern, exceptions, ActiveRules(), rawRules, redirections)
    }

    /**
     * A complete provider starts with the catch-all rule `.*`; then every
     * declared rule, raw rule, referral rule, exception and redirection is
     * added in order.
     */
    constructor(name: string, p: SerializedProvider, referralMarketing: bool := true)
      ensures Valid()
      ensures this.name == name && this.referralMarketing == referralMarketing
      ensures Snapshot() == Built(p, referralMarketing)
    {
      this.name := name;
      rules := if p.completeProvider then [".*"] else [];
      urlPattern := p.urlPattern;
      exceptions, redirections, rawRules, referralRules := [], [], [], [];
      new;
      AddRules(p.rules);
      AddRawRules(p.rawRules);
      AddReferralMarketingRules(p.referralMarketing);
      AddExceptions(p.exceptions);
      AddRedirections(p.redirections);
      this.referralMarketing := referralMarketing;
    }

    /** The constructor's loop over the declared `rule` entries. */
    method AddRules(xs: seq<string>)
      modifies this
      requires Valid()
      ensures Valid()
      ensures rules == AddAll(old(rules), xs)
      ensures name == old(name) && urlPattern == old(urlPattern) && referralMarketing == old(referralMarketing)
      ensures exceptions == old(exceptions) && redirections == old(redirections) && rawRules == old(rawRules) && referralRules == old(referralRules)
    {
      ghost var start := rules;
      for i := 0 to |xs|
        invariant Valid() && rules == AddAll(start, xs[..i])
        invariant name == old(name) && urlPattern == old(urlPattern) && referralMarketing == old(referralMarketing)
        invariant exceptions == old(exceptions) && redirections == old(redirections) && rawRules == old(rawRules) && referralRules == old(referralRules)
      {
        AddAllSnoc(start, xs[..i], xs[i]);
        assert xs[..i + 1] == xs[..i] + [xs[i]];
        AddRule(xs[i]);
      }
      assert xs[..|xs|] == xs;
    }

    /** The constructor's loop over the declared `rawRule` entries. */
    method AddRawRules(xs: seq<string>)
      modifies this
      requires Valid()
      ensures Valid()
      ensures rawRules == AddAll(old(rawRules), xs)
      ensures name == old(name) && urlPattern == old(urlPattern) && referralMarketing == old(referralMarketing)
      ensures rules == old(rules) && exceptions == old(exceptions) && redirections == old(redirections) && referralRules == old(referralRules)
    {
      ghost var start := rawRules;
      for i := 0 to |xs|
        invariant Valid() && rawRules == AddAll(start, xs[..i])
        invariant name == old(name) && urlPattern == old(urlPattern) && referralMarketing == old(referralMarketing)
        invariant rules == old(rules) && exceptions == old(exceptions) && redirections == old(redirections) && referralRules == old(referralRules)
      {
        AddAllSnoc(start, xs[..i], xs[i]);
        assert xs[..i + 1] == xs[..i] + [xs[i]];
        AddRawRule(xs[i]);
      }
      assert xs[..|xs|] == xs;
    }

    /** The constructor's loop over the declared `referralMarketingRule` entries. */
    method AddReferralMarketingRules(xs: seq<string>)
      modifies this
      requires Valid()
      ensures Valid()
      ensures referralRules == AddAll(old(referralRules), xs)
      ensures name == old(name) && urlPattern == old(urlPattern) && referralMarketing == old(referralMarketing)
      ensures rules == old(rules) && exceptions == old(exceptions) && redirections == old(redirections) && rawRules == old(rawRules)
    {
      ghost var start := referralRules;
      for i := 0 to |xs|
        invariant Valid() && referralRules == AddAll(start, xs[..i])
        invariant name == old(name) && urlPattern == old(urlPattern) && referralMarketing == old(referralMarketing)
        invariant rules == old(rules) && exceptions == old(exceptions) && redirections == old(redirections) && rawRules == old(rawRules)
      {
        AddAllSnoc(start, xs[..i], xs[i]);
        assert xs[..i + 1] == xs[..i] + [xs[i]];
        AddReferralMarketing(xs[i]);
      }
      assert xs[..|xs|] == xs;
    }

    /** The constructor's loop over the declared `exception` entries. */
    method AddExceptions(xs: seq<string>)
      modifies this
      requires Valid()
      ensures Valid()
      ensures exceptions == AddAll(old(exceptions), xs)
      ensures name == old(name) && urlPattern == old(urlPattern) && referralMarketing == old(referralMarketing)
      ensures rules == old(rules) && redirections == old(redirections) && rawRules == old(rawRules) && referralRules == old(referralRules)
    {
      ghost var start := exceptions;
      for i := 0 to |xs|
        invariant Valid() && exceptions == AddAll(start, xs[..i])
        invariant name == old(name) && urlPattern == old(urlPattern) && referralMarketing == old(referralMarketing)
        invariant rules == old(rules) && redirections == old(redirections) && rawRules == old(rawRules) && referralRules == old(referralRules)
      {
        AddAllSnoc(start, xs[..i], xs[i]);
        assert xs[..i + 1] == xs[..i] + [xs[i]];
        AddException(xs[i]);
      }
      assert xs[..|xs|] == xs;
    }

    /** The constructor's loop over the declared `redirection` entries. */
    method AddRedirections(xs: seq<string>)
      modifies this
      requires Valid()
      ensures Valid()
      ensures redirections == AddAll(old(redirections), xs)
      ensures name == old(name) && urlPattern == old(urlPattern) && referralMarketing == old(referralMarketing)
      ensures rules == old(rules) && exceptions == old(exceptions) && rawRules == old(rawRules) && referralRules == old(referralRules)
    {
      ghost var start := redirections;
      for i := 0 to |xs|
        invariant Valid() && redirections == AddAll(start, xs[..i])
        invariant name == old(name) && urlPattern == old(urlPattern) && referralMarketing == old(referralMarketing)
        invariant rules == old(rules) && exceptions == old(exceptions) && rawRules == old(rawRules) && referralRules == old(referralRules)
      {
        AddAllSnoc(start, xs[..i], xs[i]);
        assert xs[..i + 1] == xs[..i] + [xs[i]];
        AddRedirection(xs[i]);
      }
      assert xs[..|xs|] == xs;
    }

    /** `addRule`: `enabled_rules[rule] = true`. */
    method AddRule(rule: string)
      modifies this
      requires Valid()
      ensures Valid()
      ensures rules == Add(old(rules), rule)
      ensures name == old(name) && urlPattern == old(urlPattern) && referralMarketing == old(referralMarketing)
      ensures exceptions == old(exceptions) && redirections == old(redirections)
      ensures rawRules == old(rawRules) && referralRules == old(referralRules)
    {
      rules := Add(rules, rule);
    }

    /** `addRawRule`: `enabled_rawRules[rule] = true`. */
    method AddRawRule(rule: string)
      modifies this
      requires Valid()
      ensures Valid()
      ensures rawRules == Add(old(rawRules), rule)
      ensures name == old(name) && urlPattern == old(urlPattern) && referralMarketing == old(referralMarketing)
      ensures rules == old(rules) && exceptions == old(exceptions) && redirections == old(redirections)
      ensures referralRules == old(referralRules)
    {
      rawRules := Add(rawRules, rule);
    }

    /** `addReferralMarketing`: `enabled_referralMarketing[rule] = true`. */
    method AddReferralMarketing(rule: string)
      modifies this
      requires Valid()
      ensures Valid()
      ensures referralRules == Add(old(referralRules), rule)
      ensures name == old(name) && urlPattern == old(urlPattern) && referralMarketing == old(referralMarketing)
      ensures rules == old(rules) && exceptions == old(exceptions) && redirections == old(redirections)
      ensures rawRules == old(rawRules)
    {
      referralRules := Add(referralRules, rule);
    }

    /** `addException`: `enabled_exceptions[exception] = true`. */
    method AddException(exception: string)
      modifies this
      requires Valid()
      ensures Valid()
      ensures exceptions == Add(old(exceptions), exception)
      ensures name == old(name) && urlPattern == old(urlPattern) && referralMarketing == old(referralMarketing)
      ensures rules == old(rules) && redirections == old(redirections)
      ensures rawRules == old(rawRules) && referralRules == old(referralRules)
    {
      exceptions := Add(exceptions, exception);
    }

    /** `addRedirection`: `enabled_redirections[redirection] = true`. */
    method AddRedirection(redirection: string)
      modifies this
      requires Valid()
      ensures Valid()
      ensures redirections == Add(old(redirections), redirection)
      ensures name == old(name) && urlPattern == old(urlPattern) && referralMarketing == old(referralMarketing)
      ensures rules == old(rules) && exceptions == old(exceptions)
      ensures rawRules == old(rawRules) && referralRules == old(referralRules)
    {
      redirections := Add(redirections, redirection);
    }

    /**
     * `getRules`: with referral marketing blocked, `Object.assign` writes
     * the referral rules into `enabled_rules` for good; either way the
     * keys of `enabled_rules` are returned.
     */
    method GetRules() returns (r: seq<string>)
      modifies this
      ensures old(Valid()) ==> Valid()
      ensures r == old(ActiveRules()) && rules == r
      ensures name == old(name) && urlPattern == old(urlPattern) && referralMarketing == old(referralMarketing)
      ensures exceptions == old(exceptions) && redirections == old(redirections)
      ensures rawRules == old(rawRules) && referralRules == old(referralRules)
      ensures Untouched() == old(Untouched())
      ensures Snapshot() == old(Snapshot())
    {
      if !referralMarketing {
        AddAllContents(rules, referralRules);
        UnionIdempotent(rules, referralRules);
        rules := Union(rules, referralRules);
      }
      r := rules;
    }

    /** `getRawRules`: the keys of `enabled_rawRules`, each once. */
    function GetRawRules(): (r: seq<string>)
      reads this
      ensures Valid() ==> NoDup(r)
      ensures forall x :: x in r <==> x in rawRules
    {
      rawRules
    }

    function GetName(): string
      reads this
    {
      name
    }

    /** `matchException`: whether some exception matches `url`. */
    method MatchException(js: Js, url: string) returns (result: bool)
      ensures result <==> AnyMatch(js, exceptions, url)
      ensures exceptions == [] ==> !result
    {
      result := MatchAny(js, exceptions, url);
    }

    /** `getRedirection`: the first firing redirection, then its first capture group if non-empty. */
    method GetRedirection(js: Js, url: string) returns (re: Option<string>)
      ensures re == Redirection(js, redirections, url)
    {
      re := None;
      var k := FindRedirection(js, redirections, url);
      if k.Some? {
        var capture := js.capture1(redirections[k.value], url);
        if capture.Some? && capture.value != "" {
          re := capture;
        }
      }
    }

    /** `matchURL`: the site pattern matches and no exception does. */
    method MatchURL(js: Js, url: string) returns (b: bool)
      ensures b <==> Matches(js, Snapshot(), url)
    {
      b := js.test(urlPattern, url);
      if b {
        var excepted := MatchException(js, url);
        b := !excepted;
      }
    }

    /**
     * `removeFieldsFormURL(pureUrl)`: the active rules are fetched first
     * (which may fold the referral rules in), then `new URL` checks the
     * text, then a redirection short-cuts everything else.
     */
    method RemoveFieldsFormURL(js: Js, pureUrl: string) returns (r: Fallible<Outcome>)
      modifies this
      ensures old(Valid()) ==> Valid()
      ensures rules == old(ActiveRules())
      ensures Untouched() == old(Untouched())
      ensures Snapshot() == old(Snapshot()) && name == old(name)
      ensures r == RemoveFields(js, Snapshot(), pureUrl)
    {
      var rules := GetRules();
      var rawRules := GetRawRules();
      var urlObject := js.parse(pureUrl);
      if urlObject.None? {
        return Throws(TypeError);
      }
      var re := GetRedirection(js, pureUrl);
      if re.Some? {
        var target := DecodeURL(re.value);
        if target.Throws? {
          return Throws(target.error);
        }
        return Ok(Redirect(target.value));
      }
      r := CleanFields(js, rules, rawRules, pureUrl);
    }
  }

  // ---------------------------------------------------------------------
  // Properties

  /**
   * The families of a freshly built provider: each is duplicate-free and
   * holds exactly the declared entries; a complete provider's first field
   * rule is `.*`; referral rules count as field rules only when referral
   * marketing is blocked.
   */
  lemma BuiltFamilies(p: SerializedProvider, referralMarketing: bool)
    ensures var s := Built(p, referralMarketing);
      && NoDup(s.rules) && NoDup(s.exceptions) && NoDup(s.rawRules) && NoDup(s.redirections)
      && (p.completeProvider ==> |s.rules| > 0 && s.rules[0] == ".*")
      && (forall x :: x in s.rules ==> (p.completeProvider && x == ".*") || x in p.rules ||
                                       (!referralMarketing && x in p.referralMarketing))
      && (forall x :: x in p.rules ==> x in s.rules)
      && (forall x :: !referralMarketing && x in p.referralMarketing ==> x in s.rules)
      && (forall x :: x in s.exceptions <==> x in p.exceptions)
      && (forall x :: x in s.rawRules <==> x in p.rawRules)
      && (forall x :: x in s.redirections <==> x in p.redirections)
  {
    BuiltRules(p, referralMarketing);
    if p.completeProvider {
      BuiltCatchAllFirst(p, referralMarketing);
    }
    AddAllContents([], p.exceptions);
    AddAllContents([], p.rawRules);
    AddAllContents([], p.redirections);
  }

  lemma BuiltRules(p: SerializedProvider, referralMarketing: bool)
    ensures var r := Built(p, referralMarketing).rules;
      && NoDup(r)
      && (forall x :: x in r ==> (p.completeProvider && x == ".*") || x in p.rules ||
                                 (!referralMarketing && x in p.referralMarketing))
      && (forall x :: x in p.rules ==> x in r)
      && (forall x :: !referralMarketing && x in p.referralMarketing ==> x in r)
  {
    var init: seq<string> := if p.completeProvider then [".*"] else [];
    var rules := AddAll(init, p.rules);
    var referral := AddAll([], p.referralMarketing);
    AddAllContents(init, p.rules);
    AddAllContents([], p.referralMarketing);
    AddAllContents(rules, referral);
  }

  /** A complete provider's catch-all rule comes before every declared rule. */
  lemma BuiltCatchAllFirst(p: SerializedProvider, referralMarketing: bool)
    requires p.completeProvider
    ensures var r := Built(p, referralMarketing).rules;
            |r| > 0 && r[0] == ".*"
  {
    var rules := AddAll([".*"], p.rules);
    var referral := AddAll([], p.referralMarketing);
    AddAllContents([".*"], p.rules);
    assert rules[..1] == [".*"];
    if !referralMarketing {
      AddAllContents(rules, referral);
      assert Union(rules, referral)[..|rules|] == rules;
      assert Union(rules, referral)[0] == rules[..1][0];
    }
  }

  /** Fetching the active rules twice gives the same rules: folding the referral rules in again changes nothing. */
  lemma ActiveRulesStable(rules: seq<string>, referral: seq<string>, referralMarketing: bool)
    ensures Active(Active(rules, referral, referralMarketing), referral, referralMarketing)
         == Active(rules, referral, referralMarketing)
  {
    if !referralMarketing {
      UnionIdempotent(rules, referral);
    }
  }

  /** `getRedirection` returns the capture of the first firing redirection in insertion order. */
  lemma RedirectionFirst(js: Js, pats: seq<string>, url: string, k: nat)
    requires k < |pats| && Fires(js, pats[k], url)
    requires forall j :: 0 <= j < k ==> !Fires(js, pats[j], url)
    requires js.capture1(pats[k], url).Some? && js.capture1(pats[k], url).value != ""
    ensures Redirection(js, pats, url) == js.capture1(pats[k], url)
  {
    FirstMatchAt(js, pats, url, k);
  }

  /** With no redirection firing, or an empty capture, `getRedirection` is null. */
  lemma RedirectionNull(js: Js, pats: seq<string>, url: string)
    requires (forall k :: 0 <= k < |pats| ==> !Fires(js, pats[k], url)) ||
             (exists k :: 0 <= k < |pats| && Fires(js, pats[k], url) &&
                          (forall j :: 0 <= j < k ==> !Fires(js, pats[j], url)) &&
                          js.capture1(pats[k], url) == Some(""))
    ensures Redirection(js, pats, url) == None
  {
    if exists k :: 0 <= k < |pats| && Fires(js, pats[k], url) &&
                   (forall j :: 0 <= j < k ==> !Fires(js, pats[j], url)) &&
                   js.capture1(pats[k], url) == Some("") {
      var k :| 0 <= k < |pats| && Fires(js, pats[k], url) &&
               (forall j :: 0 <= j < k ==> !Fires(js, pats[j], url)) &&
               js.capture1(pats[k], url) == Some("");
      FirstMatchAt(js, pats, url, k);
    }
  }

  /**
   * A redirection wins: when one applies, the result is a redirect to a
   * target starting with `http` (or decoding throws), and neither raw nor
   * field rules are applied.
   */
  lemma RedirectionWins(js: Js, s: RuleSet, url: string)
    requires js.parse(url).Some? && Redirection(js, s.redirections, url).Some?
    ensures var r := RemoveFields(js, s, url);
            (r.Ok? ==> r.value.Redirect? && StartsWith(r.value.url, "http") &&
                       Ok(r.value.url) == DecodedURL(Redirection(js, s.redirections, url).value)) &&
            (r.Throws? ==> r.error == UriError)
  {
  }

  /** The library provider never cancels, and without a redirection it never redirects. */
  lemma LibraryOutcomes(js: Js, s: RuleSet, url: string)
    ensures var r := RemoveFields(js, s, url);
            r.Ok? ==> !r.value.Cancel? && (r.value.Redirect? <==> Redirection(js, s.redirections, url).Some?)
  {
  }

  /** Without exceptions, `matchURL` is the site pattern alone. */
  lemma MatchesWithoutExceptions(js: Js, s: RuleSet, url: string)
    requires s.exceptions == []
    ensures Matches(js, s, url) <==> js.test(s.urlPattern, url)
  {
  }
}
