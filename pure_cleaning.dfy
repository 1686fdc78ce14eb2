/**
 * `pureCleaning(url)` (core_js/pureCleaning.ts): run every provider of
 * the extension over a URL, each on the URL the previous one left, and
 * repeat whole passes until a pass changes nothing.
 */
module PureCleaning {
  import opened Web
  import opened Pipeline
  import opened LegacyProvider

  /**
   * One `_cleaning` pass from some provider on: a matching provider cleans
   * the current URL and hands on its result's URL; the first redirect ends
   * the pass with its target.
   */
  function Pass(js: Js, sets: seq<LegacySet>, url: string, domainBlocking: bool): Fallible<string>
    decreases |sets|
  {
    if sets == [] then Ok(url)
    else
      match Visit(js, sets[0], url, domainBlocking)
      case Throws(e) => Throws(e)
      case Ok(o) => if o.Redirect? then Ok(o.url) else Pass(js, sets[1..], o.url, domainBlocking)
  }

  /** One provider's turn: a provider that does not match leaves the URL as it is. */
  function Visit(js: Js, s: LegacySet, url: string, domainBlocking: bool): Fallible<Outcome> {
    if Matches(js, s, url) then RemoveFields(js, s, url, domainBlocking) else Ok(Cleaned(url, false))
  }

  /**
   * The do-while loop of `pureCleaning`, allowed at most `fuel` passes:
   * `Some(u)` when a pass left `u` unchanged, `None` when the passes ran out.
   */
  function Stabilize(js: Js, sets: seq<LegacySet>, url: string, domainBlocking: bool, fuel: nat): Fallible<Option<string>>
    decreases fuel
  {
    if fuel == 0 then Ok(None)
    else
      match Pass(js, sets, url, domainBlocking)
      case Throws(e) => Throws(e)
      case Ok(after) => if after == url then Ok(Some(after)) else Stabilize(js, sets, after, domainBlocking, fuel - 1)
  }

  /**
   * `_cleaning(url)`: a matching provider's result replaces the current
   * URL, and a redirect returns at once. The providers answer as `sets`
   * throughout, and keep what `Kept` names.
   */
  method Cleaning(js: Js, providers: seq<Provider>, url: string, domainBlocking: bool, referralMarketing: bool,
                  ghost sets: seq<LegacySet>, ghost frames: seq<Frame>, ghost valids: seq<bool>)
    returns (r: Fallible<string>)
    requires Kept(providers, referralMarketing, sets, frames, valids)
    modifies providers
    ensures Kept(providers, referralMarketing, sets, frames, valids)
    ensures r == Pass(js, sets, url, domainBlocking)
  {
    var cleanURL := url;
    for i := 0 to |providers|
      invariant Kept(providers, referralMarketing, sets, frames, valids)
      invariant Pass(js, sets, url, domainBlocking) == Pass(js, sets[i..], cleanURL, domainBlocking)
    {
      assert sets[i..][1..] == sets[i + 1..];
      var result := VisitAt(js, providers, i, cleanURL, domainBlocking, referralMarketing, sets, frames, valids);
      if result.Throws? {
        return Throws(result.error);
      }
      cleanURL := result.value.url;
      if result.value.Redirect? {
        return Ok(result.value.url);
      }
    }
    return Ok(cleanURL);
  }

  /** One turn of `_cleaning`'s loop, on provider `i`, keeping what the loop keeps. */
  method VisitAt(js: Js, providers: seq<Provider>, i: nat, cleanURL: string, domainBlocking: bool,
                 referralMarketing: bool, ghost sets: seq<LegacySet>, ghost frames: seq<Frame>, ghost valids: seq<bool>)
    returns (result: Fallible<Outcome>)
    requires i < |providers| && Kept(providers, referralMarketing, sets, frames, valids)
    modifies providers[i]
    ensures Kept(providers, referralMarketing, sets, frames, valids)
    ensures result == Visit(js, sets[i], cleanURL, domainBlocking)
  {
    result := VisitProvider(js, providers[i], cleanURL, domainBlocking, referralMarketing);
  }

  /** The body of `_cleaning`'s loop: the provider cleans `cleanURL` if it matches it. */
  method VisitProvider(js: Js, provider: Provider, cleanURL: string, domainBlocking: bool, referralMarketing: bool)
    returns (result: Fallible<Outcome>)
    modifies provider
    ensures old(provider.Valid()) ==> provider.Valid()
    ensures provider.Untouched() == old(provider.Untouched())
    ensures provider.Snapshot(referralMarketing) == old(provider.Snapshot(referralMarketing))
    ensures result == Visit(js, provider.Snapshot(referralMarketing), cleanURL, domainBlocking)
  {
    var matched := provider.MatchURL(js, cleanURL);
    if !matched {
      return Ok(Cleaned(cleanURL, false));
    }
    result := RemoveFieldsFormURL(js, provider, cleanURL, domainBlocking, referralMarketing);
  }

  /** `pureCleaning(url)`, cut off after `fuel` passes. */
  method PureCleaningLoop(js: Js, providers: seq<Provider>, url: string, domainBlocking: bool, referralMarketing: bool,
                          fuel: nat)
    returns (r: Fallible<Option<string>>)
    modifies providers
    ensures forall k :: 0 <= k < |providers| ==> old(providers[k].Valid()) ==> providers[k].Valid()
    ensures forall k :: 0 <= k < |providers| ==> providers[k].Untouched() == old(providers[k].Untouched())
    ensures SnapshotsOf(providers, referralMarketing) == old(SnapshotsOf(providers, referralMarketing))
    ensures r == Stabilize(js, SnapshotsOf(providers, referralMarketing), url, domainBlocking, fuel)
  {
    ghost var sets := SnapshotsOf(providers, referralMarketing);
    ghost var frames, valids := FramesOf(providers), ValidsOf(providers);
    r := CleaningPasses(js, providers, url, domainBlocking, referralMarketing, fuel, sets, frames, valids);
  }

  /** The do-while loop of `pureCleaning`, with the providers answering as `sets` throughout. */
  method CleaningPasses(js: Js, providers: seq<Provider>, url: string, domainBlocking: bool, referralMarketing: bool,
                        fuel: nat, ghost sets: seq<LegacySet>, ghost frames: seq<Frame>, ghost valids: seq<bool>)
    returns (r: Fallible<Option<string>>)
    requires Kept(providers, referralMarketing, sets, frames, valids)
    modifies providers
    ensures Kept(providers, referralMarketing, sets, frames, valids)
    ensures r == Stabilize(js, sets, url, domainBlocking, fuel)
  {
    var after := url;
    var left := fuel;
    while left > 0
      invariant Kept(providers, referralMarketing, sets, frames, valids)
      invariant Stabilize(js, sets, url, domainBlocking, fuel) == Stabilize(js, sets, after, domainBlocking, left)
      decreases left
    {
      var before := after;
      var next := Cleaning(js, providers, before, domainBlocking, referralMarketing, sets, frames, valids);
      if next.Throws? {
        return Throws(next.error);
      }
      after := next.value;
      if after == before {
        return Ok(Some(after));
      }
      left := left - 1;
    }
    return Ok(None);
  }

  // ---------------------------------------------------------------------
  // Properties

  /** What `pureCleaning` returns is a fixpoint: one more pass leaves it as it is. */
  lemma {:induction false} StabilizeFixpoint(js: Js, sets: seq<LegacySet>, url: string, domainBlocking: bool, fuel: nat)
    requires Stabilize(js, sets, url, domainBlocking, fuel).Ok?
    requires Stabilize(js, sets, url, domainBlocking, fuel).value.Some?
    ensures Pass(js, sets, Stabilize(js, sets, url, domainBlocking, fuel).value.value, domainBlocking) ==
            Ok(Stabilize(js, sets, url, domainBlocking, fuel).value.value)
    decreases fuel
  {
    var after := Pass(js, sets, url, domainBlocking).value;
    if after != url {
      StabilizeFixpoint(js, sets, after, domainBlocking, fuel - 1);
    }
  }

  /** Cleaning a cleaned URL again gives it back. */
  lemma StabilizeIdempotent(js: Js, sets: seq<LegacySet>, url: string, domainBlocking: bool, fuel: nat, fuel': nat)
    requires Stabilize(js, sets, url, domainBlocking, fuel).Ok?
    requires Stabilize(js, sets, url, domainBlocking, fuel).value.Some?
    requires fuel' > 0
    ensures var u := Stabilize(js, sets, url, domainBlocking, fuel).value.value;
            Stabilize(js, sets, u, domainBlocking, fuel') == Ok(Some(u))
  {
    StabilizeFixpoint(js, sets, url, domainBlocking, fuel);
  }

  /** The cut-off does not matter once the loop has ended: more passes give the same answer. */
  lemma {:induction false} StabilizeMoreFuel(js: Js, sets: seq<LegacySet>, url: string, domainBlocking: bool,
                                            fuel: nat, fuel': nat)
    requires fuel <= fuel'
    requires Stabilize(js, sets, url, domainBlocking, fuel) != Ok(None)
    ensures Stabilize(js, sets, url, domainBlocking, fuel') == Stabilize(js, sets, url, domainBlocking, fuel)
    decreases fuel
  {
    var p := Pass(js, sets, url, domainBlocking);
    if p.Ok? && p.value != url {
      StabilizeMoreFuel(js, sets, p.value, domainBlocking, fuel - 1, fuel' - 1);
    }
  }

  /** A URL no provider matches passes through one pass unchanged. */
  lemma {:induction false} PassNoMatch(js: Js, sets: seq<LegacySet>, url: string, domainBlocking: bool)
    requires forall k :: 0 <= k < |sets| ==> !Matches(js, sets[k], url)
    ensures Pass(js, sets, url, domainBlocking) == Ok(url)
    decreases |sets|
  {
    if sets != [] {
      assert forall k :: 0 <= k < |sets[1..]| ==> sets[1..][k] == sets[k + 1];
      PassNoMatch(js, sets[1..], url, domainBlocking);
    }
  }

  /** ... and so `pureCleaning` returns it as it is after one pass. */
  lemma NoMatchStable(js: Js, sets: seq<LegacySet>, url: string, domainBlocking: bool, fuel: nat)
    requires forall k :: 0 <= k < |sets| ==> !Matches(js, sets[k], url)
    requires fuel > 0
    ensures Stabilize(js, sets, url, domainBlocking, fuel) == Ok(Some(url))
  {
    PassNoMatch(js, sets, url, domainBlocking);
  }

  /**
   * The URL that `_cleaning` hands to provider `k`: each provider before it
   * that matched has cleaned the URL it was given. `None` when one of them
   * threw or redirected, so that the pass never gets there.
   */
  function UrlBefore(js: Js, sets: seq<LegacySet>, url: string, domainBlocking: bool, k: nat): Option<string>
    requires k <= |sets|
    decreases k
  {
    if k == 0 then Some(url)
    else
      match UrlBefore(js, sets, url, domainBlocking, k - 1)
      case None => None
      case Some(u) =>
        match Visit(js, sets[k - 1], u, domainBlocking)
        case Throws(_) => None
        case Ok(o) => if o.Redirect? then None else Some(o.url)
  }

  /** Once the pass reaches provider `k`, the rest of it is the pass over the providers from `k` on. */
  lemma {:induction false} PassReaches(js: Js, sets: seq<LegacySet>, url: string, domainBlocking: bool, k: nat, u: string)
    requires k <= |sets|
    requires UrlBefore(js, sets, url, domainBlocking, k) == Some(u)
    ensures Pass(js, sets, url, domainBlocking) == Pass(js, sets[k..], u, domainBlocking)
    decreases k
  {
    if k > 0 {
      var u0 := UrlBefore(js, sets, url, domainBlocking, k - 1).value;
      PassReaches(js, sets, url, domainBlocking, k - 1, u0);
      assert sets[k - 1..][0] == sets[k - 1];
      assert sets[k - 1..][1..] == sets[k..];
    }
  }

  /**
   * The first redirect ends the pass: when the pass reaches provider `k`
   * with URL `u` (the providers before it may have matched and rewritten
   * the URL) and `k` matches `u` and redirects, its target is the answer,
   * whatever the providers after it would do.
   */
  lemma PassFirstRedirect(js: Js, sets: seq<LegacySet>, url: string, domainBlocking: bool,
                          k: nat, u: string, target: string)
    requires k < |sets|
    requires UrlBefore(js, sets, url, domainBlocking, k) == Some(u)
    requires Matches(js, sets[k], u) && RemoveFields(js, sets[k], u, domainBlocking) == Ok(Redirect(target))
    ensures Pass(js, sets, url, domainBlocking) == Ok(target)
  {
    PassReaches(js, sets, url, domainBlocking, k, u);
    assert sets[k..][0] == sets[k];
  }

  /**
   * A cancelling provider does not stop `pureCleaning`: the URL goes on,
   * unchanged, to the next provider.
   */
  lemma PassCancelGoesOn(js: Js, sets: seq<LegacySet>, url: string, domainBlocking: bool)
    requires sets != [] && Matches(js, sets[0], url)
    requires RemoveFields(js, sets[0], url, domainBlocking).Ok? && RemoveFields(js, sets[0], url, domainBlocking).value.Cancel?
    ensures Pass(js, sets, url, domainBlocking) == Pass(js, sets[1..], url, domainBlocking)
  {
    RemoveFieldsOrder(js, sets[0], url, domainBlocking);
  }
}
