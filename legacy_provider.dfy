/**
 * The extension's provider (lib/index.ts): every rule family has an
 * enabled and a disabled set, a provider may cancel whole requests, carry
 * an HTTP-method filter and force redirects through a tab update, and the
 * site-blocked sentinel URL is an exception of every provider.
 */
module LegacyProvider {
  import opened Web
  import opened OrderedSets
  import opened Tools
  import opened Pipeline

  /** The URL a blocked sub-request is redirected to. */
  const SiteBlockedAlert: string := "javascript:void(0)"

  /** The five rule families, each kept as an enabled and a disabled record. */
  datatype Family = Rules | RawRules | ReferralMarketing | Exceptions | Redirections

  /** What the cleaning of one request reads from a provider. */
  datatype LegacySet = LegacySet(
    urlPattern: string,
    exceptions: seq<string>,
    rules: seq<string>,        // the active field rules, as getRules returns them
    rawRules: seq<string>,
    redirections: seq<string>,
    canceling: bool,
    forceRedirection: bool,
    methods: seq<string>)

  /** `matchException`: the sentinel always counts as an exception. */
  predicate ExceptionMatches(js: Js, exceptions: seq<string>, url: string) {
    url == SiteBlockedAlert || AnyMatch(js, exceptions, url)
  }

  /** `matchURL`. */
  predicate Matches(js: Js, s: LegacySet, url: string) {
    js.test(s.urlPattern, url) && !ExceptionMatches(js, s.exceptions, url)
  }

  /** `matchMethod`: an empty list lets every method through. */
  predicate MethodMatches(methods: seq<string>, httpMethod: string) {
    methods == [] || httpMethod in methods
  }

  /**
   * The value of `getRedirection` here: capture group 1 of the first firing
   * redirection. An undefined group is not turned into null, so the text
   * `decodeURL` sees is `"undefined"`.
   */
  function Redirection(js: Js, pats: seq<string>, url: string): Option<string> {
    match FirstMatch(js, pats, url)
    case None => None
    case Some(k) =>
      match js.capture1(pats[k], url)
      case Some(c) => Some(c)
      case None => Some("undefined")
  }

  /** What the module-level `removeFieldsFormURL(provider, url)` returns or throws. */
  function RemoveFields(js: Js, s: LegacySet, url: string, domainBlocking: bool): Fallible<Outcome> {
    match js.parse(url)
    case None => Throws(TypeError)
    case Some(_) =>
      match Redirection(js, s.redirections, url)
      case Some(re) =>
        (match DecodedURL(re)
         case Throws(e) => Throws(e)
         case Ok(target) => Ok(Redirect(target)))
      case None =>
        if s.canceling && domainBlocking then Ok(Cancel(url))
        else CleanTail(js, s.rules, s.rawRules, url)
  }

  /** No element of `a` is in `b`. */
  predicate Disjoint(a: seq<string>, b: seq<string>) {
    forall x :: x in a ==> x !in b
  }

  /** One record per rule family. */
  datatype Families = Families(rules: seq<string>, rawRules: seq<string>, referralMarketing: seq<string>,
                               exceptions: seq<string>, redirections: seq<string>)
  {
    function Get(f: Family): seq<string> {
      match f
      case Rules => rules
      case RawRules => rawRules
      case ReferralMarketing => referralMarketing
      case Exceptions => exceptions
      case Redirections => redirections
    }

    /** The records with family `f` replaced by `v`. */
    function With(f: Family, v: seq<string>): (r: Families)
      ensures r.Get(f) == v
      ensures forall g :: g != f ==> r.Get(g) == Get(g)
    {
      match f
      case Rules => this.(rules := v)
      case RawRules => this.(rawRules := v)
      case ReferralMarketing => this.(referralMarketing := v)
      case Exceptions => this.(exceptions := v)
      case Redirections => this.(redirections := v)
    }
  }

  const NoRules: Families := Families([], [], [], [], [])

  /** Family `f` of `enabled` and of `disabled` are sets. */
  predicate FamilyOk(enabled: Families, disabled: Families, f: Family) {
    NoDup(enabled.Get(f)) && NoDup(disabled.Get(f))
  }

  predicate AllOk(enabled: Families, disabled: Families) {
    && FamilyOk(enabled, disabled, Rules) && FamilyOk(enabled, disabled, RawRules)
    && FamilyOk(enabled, disabled, ReferralMarketing) && FamilyOk(enabled, disabled, Exceptions)
    && FamilyOk(enabled, disabled, Redirections)
  }

  /** Replacing one family by sets keeps all families sets. */
  lemma WithOk(enabled: Families, disabled: Families, f: Family, on: seq<string>, off: seq<string>)
    requires AllOk(enabled, disabled) && NoDup(on) && NoDup(off)
    ensures AllOk(enabled.With(f, on), disabled.With(f, off))
  {
  }

  /**
   * Moving `rule` into `on` and out of `off` leaves two sets that share
   * nothing new.
   */
  lemma Toggle(on: seq<string>, off: seq<string>, rule: string)
    requires NoDup(on) && NoDup(off)
    ensures NoDup(Add(on, rule)) && NoDup(Remove(off, rule))
    ensures rule in Add(on, rule) && rule !in Remove(off, rule)
    ensures Disjoint(on, off) ==> Disjoint(Add(on, rule), Remove(off, rule))
  {
  }

  /** `applyRule` on the records: enabling adds to `enabled` and removes from `disabled`, disabling the reverse. */
  function Toggled(enabled: Families, disabled: Families, f: Family, rule: string, isActive: bool): (Families, Families) {
    if isActive then (enabled.With(f, Add(enabled.Get(f), rule)), disabled.With(f, Remove(disabled.Get(f), rule)))
    else (enabled.With(f, Remove(enabled.Get(f), rule)), disabled.With(f, Add(disabled.Get(f), rule)))
  }

  /**
   * Toggling keeps every record a set, leaves the rule on exactly the
   * requested side, and never makes a rule both enabled and disabled.
   */
  lemma ToggledOk(enabled: Families, disabled: Families, f: Family, rule: string, isActive: bool)
    requires AllOk(enabled, disabled)
    ensures var (e, d) := Toggled(enabled, disabled, f, rule, isActive);
      && AllOk(e, d)
      && (isActive ==> rule in e.Get(f) && rule !in d.Get(f))
      && (!isActive ==> rule in d.Get(f) && rule !in e.Get(f))
      && (forall g :: Separated(enabled, disabled, g) ==> Separated(e, d, g))
  {
    var on, off := enabled.Get(f), disabled.Get(f);
    assert FamilyOk(enabled, disabled, f);
    if isActive {
      Toggle(on, off, rule);
      WithOk(enabled, disabled, f, Add(on, rule), Remove(off, rule));
    } else {
      Toggle(off, on, rule);
      WithOk(enabled, disabled, f, Remove(on, rule), Add(off, rule));
    }
  }

  /** No rule of family `f` is both enabled and disabled. */
  predicate Separated(enabled: Families, disabled: Families, f: Family) {
    Disjoint(enabled.Get(f), disabled.Get(f))
  }

  /** The fields of a provider other than its enabled field rules. */
  type Frame = (string, string, Families, Families, bool, bool, bool, bool, seq<string>)

  class Provider {
    var name: string
    var urlPattern: string
    var enabled: Families
    var disabled: Families
    var completeProvider: bool
    var canceling: bool
    var forceRedirection: bool
    var active: bool
    var methods: seq<string>

    /** Every family's records are sets; only a complete provider cancels. */
    ghost predicate Valid()
      reads this
    {
      AllOk(enabled, disabled) && NoDup(methods) && canceling == completeProvider
    }

    /** `getRules`' value for the global referral-marketing setting. */
    function ActiveRules(referralMarketing: bool): seq<string>
      reads this
    {
      if !referralMarketing then Union(enabled.rules, enabled.referralMarketing) else enabled.rules
    }

    /** Every field but the enabled field rules: what `getRules`, and so the cleaning, never changes. */
    function Untouched(): Frame
      reads this
    {
      (name, urlPattern, enabled.With(Rules, []), disabled, completeProvider, canceling, forceRedirection, active, methods)
    }

    function Snapshot(referralMarketing: bool): LegacySet
      reads this
    {
      LegacySet(urlPattern, enabled.exceptions, ActiveRules(referralMarketing), enabled.rawRules,
                enabled.redirections, canceling, forceRedirection, methods)
    }

    /**
     * A complete provider cancels and has the catch-all rule `.*`; every
     * other family starts empty. The pattern is set afterwards with
     * `setURLPattern`.
     */
    constructor(name: string, completeProvider: bool := false, forceRedirection: bool := false,
                isActive: bool := true)
      ensures Valid()
      ensures this.name == name && this.completeProvider == completeProvider
      ensures canceling == completeProvider && this.forceRedirection == forceRedirection && active == isActive
      ensures enabled == (if completeProvider then NoRules.(rules := [".*"]) else NoRules)
      ensures disabled == NoRules
      ensures methods == [] && urlPattern == ""
    {
      this.name := name;
      this.completeProvider := completeProvider;
      canceling := completeProvider;
      this.forceRedirection := forceRedirection;
      active := isActive;
      urlPattern := "";
      methods := [];
      disabled := NoRules;
      enabled := if completeProvider then NoRules.(rules := [".*"]) else NoRules;
    }

    /** `shouldForceRedirect`: the constructor's flag, which no method changes. */
    function ShouldForceRedirect(): (r: bool)
      reads this
      ensures r <==> forceRedirection
    {
      forceRedirection
    }

    /** `getName`: the constructor's name, which no method changes. */
    function GetName(): (r: string)
      reads this
      ensures r == name
    {
      name
    }

    /** `isCaneling`: a valid provider cancels exactly when it was built as a complete provider. */
    function IsCaneling(): (r: bool)
      reads this
      ensures Valid() ==> (r <==> completeProvider)
    {
      canceling
    }

    /** `setURLPattern`. */
    method SetURLPattern(pattern: string)
      modifies this
      requires Valid()
      ensures Valid()
      ensures urlPattern == pattern
      ensures enabled == old(enabled) && disabled == old(disabled) && methods == old(methods)
      ensures name == old(name) && canceling == old(canceling) && forceRedirection == old(forceRedirection)
    {
      urlPattern := pattern;
    }

    /**
     * `applyRule`: enabling puts the rule into the enabled record and takes
     * it out of the disabled one; disabling does the opposite.
     */
    method ApplyRule(f: Family, rule: string, isActive: bool := true)
      modifies this
      requires Valid()
      ensures Valid()
      ensures isActive ==> rule in enabled.Get(f) && rule !in disabled.Get(f)
      ensures !isActive ==> rule in disabled.Get(f) && rule !in enabled.Get(f)
      ensures forall g :: Separated(old(enabled), old(disabled), g) ==> Separated(enabled, disabled, g)
      ensures isActive ==> enabled == old(enabled).With(f, Add(old(enabled).Get(f), rule)) &&
                           disabled == old(disabled).With(f, Remove(old(disabled).Get(f), rule))
      ensures !isActive ==> disabled == old(disabled).With(f, Add(old(disabled).Get(f), rule)) &&
                            enabled == old(enabled).With(f, Remove(old(enabled).Get(f), rule))
      ensures urlPattern == old(urlPattern) && methods == old(methods) && name == old(name)
      ensures canceling == old(canceling) && forceRedirection == old(forceRedirection)
    {
      ToggledOk(enabled, disabled, f, rule, isActive);
      var next := Toggled(enabled, disabled, f, rule, isActive);
      enabled, disabled := next.0, next.1;
    }

    method AddRule(rule: string, isActive: bool := true)
      modifies this
      requires Valid()
      ensures Valid()
      ensures isActive ==> rule in enabled.Get(Rules) && rule !in disabled.Get(Rules)
      ensures !isActive ==> rule in disabled.Get(Rules) && rule !in enabled.Get(Rules)
      ensures forall g :: Separated(old(enabled), old(disabled), g) ==> Separated(enabled, disabled, g)
      ensures isActive ==> enabled == old(enabled).With(Rules, Add(old(enabled).Get(Rules), rule)) &&
                           disabled == old(disabled).With(Rules, Remove(old(disabled).Get(Rules), rule))
      ensures !isActive ==> disabled == old(disabled).With(Rules, Add(old(disabled).Get(Rules), rule)) &&
                            enabled == old(enabled).With(Rules, Remove(old(enabled).Get(Rules), rule))
      ensures forall f :: f != Rules ==> enabled.Get(f) == old(enabled).Get(f) && disabled.Get(f) == old(disabled).Get(f)
      ensures urlPattern == old(urlPattern) && methods == old(methods) && name == old(name)
      ensures canceling == old(canceling) && forceRedirection == old(forceRedirection)
    {
      ApplyRule(Rules, rule, isActive);
    }

    method AddRawRule(rule: string, isActive: bool := true)
      modifies this
      requires Valid()
      ensures Valid()
      ensures isActive ==> rule in enabled.Get(RawRules) && rule !in disabled.Get(RawRules)
      ensures !isActive ==> rule in disabled.Get(RawRules) && rule !in enabled.Get(RawRules)
      ensures forall g :: Separated(old(enabled), old(disabled), g) ==> Separated(enabled, disabled, g)
      ensures isActive ==> enabled == old(enabled).With(RawRules, Add(old(enabled).Get(RawRules), rule)) &&
                           disabled == old(disabled).With(RawRules, Remove(old(disabled).Get(RawRules), rule))
      ensures !isActive ==> disabled == old(disabled).With(RawRules, Add(old(disabled).Get(RawRules), rule)) &&
                            enabled == old(enabled).With(RawRules, Remove(old(enabled).Get(RawRules), rule))
      ensures forall f :: f != RawRules ==> enabled.Get(f) == old(enabled).Get(f) && disabled.Get(f) == old(disabled).Get(f)
      ensures urlPattern == old(urlPattern) && methods == old(methods) && name == old(name)
      ensures canceling == old(canceling) && forceRedirection == old(forceRedirection)
    {
      ApplyRule(RawRules, rule, isActive);
    }

    method AddReferralMarketing(rule: string, isActive: bool := true)
      modifies this
      requires Valid()
      ensures Valid()
      ensures isActive ==> rule in enabled.Get(ReferralMarketing) && rule !in disabled.Get(ReferralMarketing)
      ensures !isActive ==> rule in disabled.Get(ReferralMarketing) && rule !in enabled.Get(ReferralMarketing)
      ensures forall g :: Separated(old(enabled), old(disabled), g) ==> Separated(enabled, disabled, g)
      ensures isActive ==> enabled == old(enabled).With(ReferralMarketing, Add(old(enabled).Get(ReferralMarketing), rule)) &&
                           disabled == old(disabled).With(ReferralMarketing, Remove(old(disabled).Get(ReferralMarketing), rule))
      ensures !isActive ==> disabled == old(disabled).With(ReferralMarketing, Add(old(disabled).Get(ReferralMarketing), rule)) &&
                            enabled == old(enabled).With(ReferralMarketing, Remove(old(enabled).Get(ReferralMarketing), rule))
      ensures forall f :: f != ReferralMarketing ==> enabled.Get(f) == old(enabled).Get(f) && disabled.Get(f) == old(disabled).Get(f)
      ensures urlPattern == old(urlPattern) && methods == old(methods) && name == old(name)
      ensures canceling == old(canceling) && forceRedirection == old(forceRedirection)
    {
      ApplyRule(ReferralMarketing, rule, isActive);
    }

    /** `addException`: the same toggling, written out inline in the source. */
    method AddException(exception: string, isActive: bool := true)
      modifies this
      requires Valid()
      ensures Valid()
      ensures isActive ==> exception in enabled.Get(Exceptions) && exception !in disabled.Get(Exceptions)
      ensures !isActive ==> exception in disabled.Get(Exceptions) && exception !in enabled.Get(Exceptions)
      ensures forall g :: Separated(old(enabled), old(disabled), g) ==> Separated(enabled, disabled, g)
      ensures isActive ==> enabled == old(enabled).With(Exceptions, Add(old(enabled).Get(Exceptions), exception)) &&
                           disabled == old(disabled).With(Exceptions, Remove(old(disabled).Get(Exceptions), exception))
      ensures !isActive ==> disabled == old(disabled).With(Exceptions, Add(old(disabled).Get(Exceptions), exception)) &&
                            enabled == old(enabled).With(Exceptions, Remove(old(enabled).Get(Exceptions), exception))
      ensures forall f :: f != Exceptions ==> enabled.Get(f) == old(enabled).Get(f) && disabled.Get(f) == old(disabled).Get(f)
      ensures urlPattern == old(urlPattern) && methods == old(methods) && name == old(name)
      ensures canceling == old(canceling) && forceRedirection == old(forceRedirection)
    {
      ApplyRule(Exceptions, exception, isActive);
    }

    /** `addRedirection`: the same toggling, written out inline in the source. */
    method AddRedirection(redirection: string, isActive: bool := true)
      modifies this
      requires Valid()
      ensures Valid()
      ensures isActive ==> redirection in enabled.Get(Redirections) && redirection !in disabled.Get(Redirections)
      ensures !isActive ==> redirection in disabled.Get(Redirections) && redirection !in enabled.Get(Redirections)
      ensures forall g :: Separated(old(enabled), old(disabled), g) ==> Separated(enabled, disabled, g)
      ensures isActive ==> enabled == old(enabled).With(Redirections, Add(old(enabled).Get(Redirections), redirection)) &&
                           disabled == old(disabled).With(Redirections, Remove(old(disabled).Get(Redirections), redirection))
      ensures !isActive ==> disabled == old(disabled).With(Redirections, Add(old(disabled).Get(Redirections), redirection)) &&
                            enabled == old(enabled).With(Redirections, Remove(old(enabled).Get(Redirections), redirection))
      ensures forall f :: f != Redirections ==> enabled.Get(f) == old(enabled).Get(f) && disabled.Get(f) == old(disabled).Get(f)
      ensures urlPattern == old(urlPattern) && methods == old(methods) && name == old(name)
      ensures canceling == old(canceling) && forceRedirection == old(forceRedirection)
    {
      ApplyRule(Redirections, redirection, isActive);
    }

    /** `addMethod`: appended unless already listed. */
    method AddMethod(httpMethod: string)
      modifies this
      requires Valid()
      ensures Valid()
      ensures methods == Add(old(methods), httpMethod)
      ensures enabled == old(enabled) && disabled == old(disabled) && urlPattern == old(urlPattern)
      ensures canceling == old(canceling) && forceRedirection == old(forceRedirection) && name == old(name)
    {
      if httpMethod !in methods {
        methods := methods + [httpMethod];
      }
    }

    /** `matchMethod(details)`: true with no methods listed, otherwise membership. */
    function MatchMethod(httpMethod: string): (r: bool)
      reads this
      ensures methods == [] ==> r
      ensures methods != [] ==> (r <==> httpMethod in methods)
    {
      if |methods| == 0 then true else httpMethod in methods
    }

    /** `getRules`: with referral marketing allowed only the rules, else the referral rules folded in for good. */
    method GetRules(referralMarketing: bool) returns (r: seq<string>)
      modifies this
      ensures old(Valid()) ==> Valid()
      ensures r == old(ActiveRules(referralMarketing)) && r == enabled.Get(Rules)
      ensures Snapshot(referralMarketing) == old(Snapshot(referralMarketing))
      ensures forall f :: f != Rules ==> enabled.Get(f) == old(enabled).Get(f)
      ensures disabled == old(disabled) && name == old(name)
      ensures Untouched() == old(Untouched())
    {
      if !referralMarketing {
        var rules, referral := enabled.rules, enabled.referralMarketing;
        AddAllContents(rules, referral);
        UnionIdempotent(rules, referral);
        var folded := Union(rules, referral);
        assert forall x :: x in folded ==> x in rules || x in referral;
        enabled := enabled.With(Rules, folded);
        assert old(Valid()) ==> FamilyOk(enabled, disabled, Rules);
      }
      r := enabled.Get(Rules);
    }

    /** `getRawRules`: the enabled raw rules, each once. */
    function GetRawRules(): (r: seq<string>)
      reads this
      ensures Valid() ==> NoDup(r)
      ensures Separated(enabled, disabled, RawRules) ==> forall x :: x in r ==> x !in disabled.rawRules
    {
      enabled.rawRules
    }

    /** `matchException`: the sentinel first, then the enabled exceptions until one matches. */
    method MatchException(js: Js, url: string) returns (result: bool)
      ensures result <==> ExceptionMatches(js, enabled.Get(Exceptions), url)
    {
      if url == SiteBlockedAlert {
        return true;
      }
      result := MatchAny(js, enabled.Get(Exceptions), url);
    }

    method MatchURL(js: Js, url: string) returns (b: bool)
      ensures b <==> js.test(urlPattern, url) && !ExceptionMatches(js, enabled.Get(Exceptions), url)
    {
      b := js.test(urlPattern, url);
      if b {
        var excepted := MatchException(js, url);
        b := !excepted;
      }
    }

    /** `getRedirection`: capture group 1 of the first firing enabled redirection. */
    method GetRedirection(js: Js, url: string) returns (re: Option<string>)
      ensures re == Redirection(js, enabled.Get(Redirections), url)
    {
      re := None;
      var k := FindRedirection(js, enabled.Get(Redirections), url);
      if k.Some? {
        var capture := js.capture1(enabled.Get(Redirections)[k.value], url);
        re := if capture.Some? then capture else Some("undefined");
      }
    }
  }

  /**
   * The module-level `removeFieldsFormURL(provider, pureUrl)`; the global
   * `storage.referralMarketing` and `storage.domainBlocking` are parameters.
   * Redirection first, then cancelling, then the cleaning steps.
   */
  method RemoveFieldsFormURL(js: Js, provider: Provider, pureUrl: string, domainBlocking: bool, referralMarketing: bool)
    returns (r: Fallible<Outcome>)
    modifies provider
    ensures old(provider.Valid()) ==> provider.Valid()
    ensures provider.enabled.rules == old(provider.ActiveRules(referralMarketing))
    ensures provider.Untouched() == old(provider.Untouched())
    ensures provider.Snapshot(referralMarketing) == old(provider.Snapshot(referralMarketing))
    ensures r == RemoveFields(js, provider.Snapshot(referralMarketing), pureUrl, domainBlocking)
  {
    var rules := provider.GetRules(referralMarketing);
    var rawRules := provider.GetRawRules();
    var urlObject := js.parse(pureUrl);
    if urlObject.None? {
      return Throws(TypeError);
    }
    var re := provider.GetRedirection(js, pureUrl);
    if re.Some? {
      var target := DecodeURL(re.value);
      if target.Throws? {
        return Throws(target.error);
      }
      return Ok(Redirect(target.value));
    }
    if provider.IsCaneling() && domainBlocking {
      return Ok(Cancel(pureUrl));
    }
    r := CleanFields(js, rules, rawRules, pureUrl);
  }

  function SnapshotsOf(ps: seq<Provider>, referralMarketing: bool): (r: seq<LegacySet>)
    reads ps
    ensures |r| == |ps|
    ensures forall k :: 0 <= k < |ps| ==> r[k] == ps[k].Snapshot(referralMarketing)
  {
    seq(|ps|, k requires 0 <= k < |ps| reads ps => ps[k].Snapshot(referralMarketing))
  }

  // ---------------------------------------------------------------------
  // The provider loop of `clearUrl`

  /** The parts of a web request the decision reads; `kind` is the resource type. */
  datatype RequestDetails = RequestDetails(url: string, kind: string, httpMethod: string)

  /** The global settings the decision reads. */
  datatype Settings = Settings(globalStatus: bool, pingBlocking: bool, pingRequestTypes: seq<string>,
                               domainBlocking: bool, referralMarketing: bool)

  /** What the request listener answers. */
  datatype Response =
    | NoAction                    // {}
    | CancelRequest               // { cancel: true }
    | RedirectTo(target: string)  // { redirectUrl }
    | TabUpdateThenCancel(tabUrl: string)    // the tab is sent to `tabUrl` and the request cancelled
    | BlockPageThenCancel(source: string)    // the tab is sent to the blocking page for `source`, request cancelled

  /** The answer for one provider's outcome; `None` means: go on with the next provider. */
  function Answer(forceRedirection: bool, o: Outcome, request: RequestDetails): Option<Response> {
    match o
    case Redirect(target) =>
      if forceRedirection && request.kind == "main_frame" then Some(TabUpdateThenCancel(target))
      else Some(RedirectTo(target))
    case Cancel(_) =>
      if request.kind == "main_frame" then Some(BlockPageThenCancel(request.url)) else Some(RedirectTo(SiteBlockedAlert))
    case Cleaned(target, changes) =>
      if changes then Some(RedirectTo(target)) else None
  }

  /**
   * What one provider decides: `None` when its method filter or its
   * pattern turns the request away or its cleaning changes nothing.
   */
  function Consult(js: Js, s: LegacySet, request: RequestDetails, domainBlocking: bool): Fallible<Option<Response>> {
    if !MethodMatches(s.methods, request.httpMethod) || !Matches(js, s, request.url) then Ok(None)
    else
      match RemoveFields(js, s, request.url, domainBlocking)
      case Throws(e) => Throws(e)
      case Ok(o) => Ok(Answer(s.forceRedirection, o, request))
  }

  /** The provider loop from some provider on. */
  function DecideFrom(js: Js, sets: seq<LegacySet>, request: RequestDetails, domainBlocking: bool): Fallible<Response>
    decreases |sets|
  {
    if sets == [] then Ok(NoAction)
    else
      match Consult(js, sets[0], request, domainBlocking)
      case Throws(e) => Throws(e)
      case Ok(Some(response)) => Ok(response)
      case Ok(None) => DecideFrom(js, sets[1..], request, domainBlocking)
  }

  /** The decision `clearUrl(request)` takes, leaving out the browser calls it makes. */
  function Decide(js: Js, sets: seq<LegacySet>, request: RequestDetails, settings: Settings): Fallible<Response> {
    if !settings.globalStatus then Ok(NoAction)
    else if settings.pingBlocking && request.kind in settings.pingRequestTypes then Ok(CancelRequest)
    else DecideFrom(js, sets, request, settings.domainBlocking)
  }

  /**
   * One turn of the provider loop of `clearUrl`: a provider whose method
   * filter lets the request through and whose pattern matches cleans the
   * request URL into `result`; otherwise the previous `result` stays.
   * Then `result` is turned into the answer.
   */
  method ConsultProvider(js: Js, provider: Provider, request: RequestDetails, settings: Settings, result: Outcome)
    returns (answer: Fallible<Option<Response>>, next: Outcome)
    modifies provider
    requires result.Cleaned? && !result.changes
    ensures old(provider.Valid()) ==> provider.Valid()
    ensures provider.Untouched() == old(provider.Untouched())
    ensures provider.Snapshot(settings.referralMarketing) == old(provider.Snapshot(settings.referralMarketing))
    ensures answer == Consult(js, provider.Snapshot(settings.referralMarketing), request, settings.domainBlocking)
    ensures answer == Ok(None) ==> next.Cleaned? && !next.changes
  {
    ghost var s := provider.Snapshot(settings.referralMarketing);
    next := result;
    if !provider.MatchMethod(request.httpMethod) {
      assert !MethodMatches(s.methods, request.httpMethod);
      return Ok(None), next;
    }
    var matched := provider.MatchURL(js, request.url);
    assert matched == Matches(js, s, request.url);
    if matched {
      var outcome := RemoveFieldsFormURL(js, provider, request.url, settings.domainBlocking,
                                         settings.referralMarketing);
      assert outcome == RemoveFields(js, s, request.url, settings.domainBlocking);
      if outcome.Throws? {
        return Throws(outcome.error), next;
      }
      next := outcome.value;
    }
    answer := Ok(Answer(provider.ShouldForceRedirect(), next, request));
  }

  /**
   * `clearUrl(request)`: ping blocking first; then each provider whose
   * method filter lets the request through and whose pattern matches
   * cleans the request URL, and the first redirect, cancel or change ends
   * the loop. `result` is not reset between providers, as in the source.
   */
  method ClearUrl(js: Js, providers: seq<Provider>, request: RequestDetails, settings: Settings)
    returns (r: Fallible<Response>)
    modifies providers
    ensures forall k :: 0 <= k < |providers| ==> old(providers[k].Valid()) ==> providers[k].Valid()
    ensures forall k :: 0 <= k < |providers| ==> providers[k].Untouched() == old(providers[k].Untouched())
    ensures SnapshotsOf(providers, settings.referralMarketing) == old(SnapshotsOf(providers, settings.referralMarketing))
    ensures r == Decide(js, SnapshotsOf(providers, settings.referralMarketing), request, settings)
  {
    if !settings.globalStatus {
      return Ok(NoAction);
    }
    if settings.pingBlocking && request.kind in settings.pingRequestTypes {
      return Ok(CancelRequest);
    }
    r := ConsultProviders(js, providers, request, settings);
  }

  /**
   * What a loop over the providers keeps: each provider answers as it did
   * (`sets`), keeps every field but its field rules (`frames`), and stays
   * valid if it was (`valids`).
   */
  ghost predicate Kept(providers: seq<Provider>, referralMarketing: bool, sets: seq<LegacySet>,
                       frames: seq<Frame>, valids: seq<bool>)
    reads providers
  {
    && |sets| == |providers| && |frames| == |providers| && |valids| == |providers|
    && forall k :: 0 <= k < |providers| ==>
         && providers[k].Snapshot(referralMarketing) == sets[k]
         && providers[k].Untouched() == frames[k]
         && (valids[k] ==> providers[k].Valid())
  }

  ghost function FramesOf(ps: seq<Provider>): (r: seq<Frame>)
    reads ps
    ensures |r| == |ps| && forall k :: 0 <= k < |ps| ==> r[k] == ps[k].Untouched()
  {
    seq(|ps|, k requires 0 <= k < |ps| reads ps => ps[k].Untouched())
  }

  ghost function ValidsOf(ps: seq<Provider>): (r: seq<bool>)
    reads ps
    ensures |r| == |ps| && forall k :: 0 <= k < |ps| ==> r[k] == ps[k].Valid()
  {
    seq(|ps|, k requires 0 <= k < |ps| reads ps => ps[k].Valid())
  }

  /** One turn of the provider loop, on provider `i`, keeping what the loop keeps. */
  method ConsultAt(js: Js, providers: seq<Provider>, i: nat, request: RequestDetails, settings: Settings,
                   result: Outcome, ghost sets: seq<LegacySet>, ghost frames: seq<Frame>, ghost valids: seq<bool>)
    returns (answer: Fallible<Option<Response>>, next: Outcome)
    requires i < |providers| && result.Cleaned? && !result.changes
    requires Kept(providers, settings.referralMarketing, sets, frames, valids)
    modifies providers[i]
    ensures Kept(providers, settings.referralMarketing, sets, frames, valids)
    ensures answer == Consult(js, sets[i], request, settings.domainBlocking)
    ensures answer == Ok(None) ==> next.Cleaned? && !next.changes
  {
    answer, next := ConsultProvider(js, providers[i], request, settings, result);
  }

  /** The provider loop of `clearUrl`, with `result` starting as an unchanged URL. */
  method ConsultProviders(js: Js, providers: seq<Provider>, request: RequestDetails, settings: Settings)
    returns (r: Fallible<Response>)
    modifies providers
    ensures forall k :: 0 <= k < |providers| ==> old(providers[k].Valid()) ==> providers[k].Valid()
    ensures forall k :: 0 <= k < |providers| ==> providers[k].Untouched() == old(providers[k].Untouched())
    ensures SnapshotsOf(providers, settings.referralMarketing) == old(SnapshotsOf(providers, settings.referralMarketing))
    ensures r == DecideFrom(js, SnapshotsOf(providers, settings.referralMarketing), request, settings.domainBlocking)
  {
    ghost var sets := SnapshotsOf(providers, settings.referralMarketing);
    ghost var frames, valids := FramesOf(providers), ValidsOf(providers);
    var result: Outcome := Cleaned("", false);
    for i := 0 to |providers|
      invariant Kept(providers, settings.referralMarketing, sets, frames, valids)
      invariant result.Cleaned? && !result.changes
      invariant DecideFrom(js, sets, request, settings.domainBlocking) ==
                DecideFrom(js, sets[i..], request, settings.domainBlocking)
    {
      var answer;
      answer, result := ConsultAt(js, providers, i, request, settings, result, sets, frames, valids);
      DecideStep(js, sets, i, request, settings.domainBlocking);
      if answer.Throws? {
        return Throws(answer.error);
      }
      if answer.value.Some? {
        return Ok(answer.value.value);
      }
    }
    return Ok(NoAction);
  }

  /** The provider loop from provider `i` on: ask provider `i`, and go on only if it has nothing to say. */
  lemma DecideStep(js: Js, sets: seq<LegacySet>, i: nat, request: RequestDetails, domainBlocking: bool)
    requires i < |sets|
    ensures var c := Consult(js, sets[i], request, domainBlocking);
            DecideFrom(js, sets[i..], request, domainBlocking) ==
              if c.Throws? then Throws(c.error)
              else if c.value.Some? then Ok(c.value.value)
              else DecideFrom(js, sets[i + 1..], request, domainBlocking)
  {
    assert sets[i..][0] == sets[i] && sets[i..][1..] == sets[i + 1..];
  }

  // ---------------------------------------------------------------------
  // Properties

  /** No provider matches the sentinel, whatever its pattern and exceptions. */
  lemma SentinelNeverMatches(js: Js, s: LegacySet)
    ensures !Matches(js, s, SiteBlockedAlert)
  {
  }

  /**
   * A redirection takes precedence over cancelling, and cancelling needs
   * both a canceling provider and domain blocking; a cancel hands back the
   * URL unchanged.
   */
  lemma RemoveFieldsOrder(js: Js, s: LegacySet, url: string, domainBlocking: bool)
    ensures var r := RemoveFields(js, s, url, domainBlocking);
      && (r.Ok? && r.value.Cancel? ==> s.canceling && domainBlocking && r.value.url == url &&
                                        Redirection(js, s.redirections, url).None?)
      && (r.Ok? && Redirection(js, s.redirections, url).Some? ==> r.value.Redirect?)
      && (r.Ok? && r.value.Redirect? ==> StartsWith(r.value.url, "http"))
      && (r.Ok? && r.value.Cleaned? ==> !(s.canceling && domainBlocking))
  {
  }

  /**
   * An undefined capture group is not taken for "no redirection": the
   * provider redirects, and the text it decodes is `undefined`, which
   * becomes `http://undefined`.
   */
  lemma UndefinedCapture(js: Js, pats: seq<string>, url: string, k: nat)
    requires FirstMatch(js, pats, url) == Some(k) && js.capture1(pats[k], url).None?
    ensures Redirection(js, pats, url) == Some("undefined")
    ensures DecodedURL("undefined") == Ok("http://" + "undefined")
  {
    DecodePlainURL("undefined");
    assert "undefined"[0] != "http"[0];
  }

  /** Ping blocking cancels before any provider is asked. */
  lemma PingBlockedFirst(js: Js, sets: seq<LegacySet>, request: RequestDetails, settings: Settings)
    requires settings.globalStatus && settings.pingBlocking && request.kind in settings.pingRequestTypes
    ensures Decide(js, sets, request, settings) == Ok(CancelRequest)
  {
  }

  /**
   * The scan ends at the first provider that lets the request through,
   * matches, and yields a redirect, a cancel or a change; providers before
   * it that are filtered out, do not match, or change nothing do not count.
   */
  lemma DecideFirst(js: Js, sets: seq<LegacySet>, request: RequestDetails, domainBlocking: bool,
                    k: nat, response: Response)
    requires k < |sets|
    requires forall j :: 0 <= j < k ==> Consult(js, sets[j], request, domainBlocking) == Ok(None)
    requires Consult(js, sets[k], request, domainBlocking) == Ok(Some(response))
    ensures DecideFrom(js, sets, request, domainBlocking) == Ok(response)
  {
    DecideFirstFrom(js, sets, request, domainBlocking, 0, k, response);
    assert sets[0..] == sets;
  }

  /** `DecideFirst` for the loop from provider `i` on. */
  lemma {:induction false} DecideFirstFrom(js: Js, sets: seq<LegacySet>, request: RequestDetails, domainBlocking: bool,
                                          i: nat, k: nat, response: Response)
    requires i <= k < |sets|
    requires forall j :: i <= j < k ==> Consult(js, sets[j], request, domainBlocking) == Ok(None)
    requires Consult(js, sets[k], request, domainBlocking) == Ok(Some(response))
    ensures DecideFrom(js, sets[i..], request, domainBlocking) == Ok(response)
    decreases k - i
  {
    DecideStep(js, sets, i, request, domainBlocking);
    if i < k {
      DecideFirstFrom(js, sets, request, domainBlocking, i + 1, k, response);
    }
  }

  /**
   * A provider lets the scan go on exactly when it turns the request away
   * or its cleaning neither redirects, cancels nor changes anything.
   */
  lemma ConsultPasses(js: Js, s: LegacySet, request: RequestDetails, domainBlocking: bool)
    ensures Consult(js, s, request, domainBlocking) == Ok(None) <==>
      !MethodMatches(s.methods, request.httpMethod) || !Matches(js, s, request.url) ||
      exists u :: RemoveFields(js, s, request.url, domainBlocking) == Ok(Cleaned(u, false))
  {
    var r := RemoveFields(js, s, request.url, domainBlocking);
    if r.Ok? && r.value.Cleaned? && !r.value.changes {
      assert r == Ok(Cleaned(r.value.url, false));
    }
  }

  /** A change is only reported when something was removed: an unchanged cleaning lets the scan go on. */
  lemma AnswerUnchanged(forceRedirection: bool, o: Outcome, request: RequestDetails)
    ensures Answer(forceRedirection, o, request).None? <==> o.Cleaned? && !o.changes
  {
  }
}
