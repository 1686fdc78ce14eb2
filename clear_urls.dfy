/**
 * The library entry point (lib/main.ts): a `ClearURLs` object holds one
 * provider per entry of the rules file and cleans a URL with one pass.
 */
module ClearUrlsLib {
  import opened Web
  import opened Pipeline
  import opened ProviderLib

  /** The rules file: provider entries in the order of the JSON object's keys. */
  type SerializedRules = seq<(string, SerializedProvider)>

  /** The constructor's options that the cleaning uses. */
  datatype Config = Config(rulesFromMemory: Option<SerializedRules>, referralMarketing: bool := true)

  function EntryNames(entries: SerializedRules): (r: seq<string>)
    ensures |r| == |entries|
    ensures forall k :: 0 <= k < |entries| ==> r[k] == entries[k].0
  {
    seq(|entries|, k requires 0 <= k < |entries| => entries[k].0)
  }

  /** The rule sets of freshly built providers, one per entry. */
  function BuiltAll(entries: SerializedRules, referralMarketing: bool): (r: seq<RuleSet>)
    ensures |r| == |entries|
    ensures forall k :: 0 <= k < |entries| ==> r[k] == Built(entries[k].1, referralMarketing)
  {
    seq(|entries|, k requires 0 <= k < |entries| => Built(entries[k].1, referralMarketing))
  }

  /** What the providers currently answer with. */
  function SnapshotsOf(ps: seq<Provider>): (r: seq<RuleSet>)
    reads ps
    ensures |r| == |ps|
    ensures forall k :: 0 <= k < |ps| ==> r[k] == ps[k].Snapshot()
  {
    seq(|ps|, k requires 0 <= k < |ps| reads ps => ps[k].Snapshot())
  }

  /**
   * The loop of `clearUrl` from some provider on: `current` is `result.url`,
   * against which the next provider's pattern is tested, while every
   * provider cleans the original `url`. The first redirect ends the loop;
   * otherwise the original `url` comes back.
   */
  function ClearUrlFrom(js: Js, sets: seq<RuleSet>, url: string, result: Outcome): Fallible<string>
    decreases |sets|
  {
    if sets == [] then Ok(url)
    else
      match Turn(js, sets[0], url, result)
      case Throws(e) => Throws(e)
      case Ok(o) => if o.Redirect? then Ok(o.url) else ClearUrlFrom(js, sets[1..], url, o)
  }

  /**
   * One provider's turn: if its pattern matches the current result's URL
   * it cleans the original `url` into a new result; otherwise the result
   * stays.
   */
  function Turn(js: Js, s: RuleSet, url: string, result: Outcome): Fallible<Outcome> {
    if Matches(js, s, result.url) then RemoveFields(js, s, url) else Ok(result)
  }

  function ClearUrlSpec(js: Js, sets: seq<RuleSet>, url: string): Fallible<string> {
    ClearUrlFrom(js, sets, url, Cleaned(url, false))
  }

  class ClearURLs {
    var referralMarketing: bool
    var names: seq<string>          // the keys of `providers`
    var providers: seq<Provider>    // the values of `providers`, in key order

    /** One name per provider. */
    ghost predicate Valid()
      reads this
    {
      |names| == |providers|
    }

    /** `referralMarketing` defaults to true; providers are built only from rules given in memory. */
    constructor(config: Config)
      ensures Valid()
      ensures referralMarketing == config.referralMarketing
      ensures config.rulesFromMemory.None? ==> providers == [] && names == []
      ensures config.rulesFromMemory.Some? ==>
                names == EntryNames(config.rulesFromMemory.value) &&
                SnapshotsOf(providers) == BuiltAll(config.rulesFromMemory.value, config.referralMarketing)
      ensures forall k :: 0 <= k < |providers| ==> providers[k].Valid()
    {
      referralMarketing := config.referralMarketing;
      names, providers := [], [];
      new;
      if config.rulesFromMemory.Some? {
        CreateProviders(config.rulesFromMemory.value);
      }
    }

    /** `createProviders`: the map is replaced by one new provider per entry, built with this object's flag. */
    method CreateProviders(entries: SerializedRules)
      modifies this
      ensures Valid()
      ensures referralMarketing == old(referralMarketing)
      ensures names == EntryNames(entries)
      ensures SnapshotsOf(providers) == BuiltAll(entries, referralMarketing)
      ensures forall k :: 0 <= k < |providers| ==> fresh(providers[k]) && providers[k].name == entries[k].0
      ensures forall k :: 0 <= k < |providers| ==> providers[k].Valid()
    {
      providers := NewProviders(entries, referralMarketing);
      names := EntryNames(entries);
      assert SnapshotsOf(providers) == BuiltAll(entries, referralMarketing);
    }

    /**
     * `clearUrl(url)`: test each provider against the current result's URL,
     * clean the original URL with each provider that matches, and return
     * the first redirect target; otherwise return `url` itself.
     */
    method ClearUrl(js: Js, url: string) returns (r: Fallible<string>)
      requires Valid()
      modifies providers
      ensures Valid()
      ensures providers == old(providers) && names == old(names)
      ensures forall k :: 0 <= k < |providers| ==> old(providers[k].Valid()) ==> providers[k].Valid()
      ensures forall k :: 0 <= k < |providers| ==> providers[k].Untouched() == old(providers[k].Untouched())
      ensures SnapshotsOf(providers) == old(SnapshotsOf(providers))
      ensures r == ClearUrlSpec(js, SnapshotsOf(providers), url)
    {
      ghost var sets := SnapshotsOf(providers);
      ghost var frames, valids := FramesOf(providers), ValidsOf(providers);
      var result := Cleaned(url, false);
      for i := 0 to |providers|
        invariant Valid()
        invariant Kept(providers, sets, frames, valids)
        invariant !result.Redirect?
        invariant ClearUrlSpec(js, sets, url) == ClearUrlFrom(js, sets[i..], url, result)
      {
        assert sets[i..][1..] == sets[i + 1..];
        var next := TurnAt(js, providers, i, url, result, sets, frames, valids);
        if next.Throws? {
          return Throws(next.error);
        }
        result := next.value;
        if result.Redirect? {
          return Ok(result.url);
        }
      }
      return Ok(url);
    }
  }

  /**
   * What the loop of `clearUrl` keeps: each provider answers as it did
   * (`sets`), keeps every field but its field rules (`frames`), and stays
   * valid if it was (`valids`).
   */
  ghost predicate Kept(providers: seq<Provider>, sets: seq<RuleSet>, frames: seq<Frame>, valids: seq<bool>)
    reads providers
  {
    && |sets| == |providers| && |frames| == |providers| && |valids| == |providers|
    && forall k :: 0 <= k < |providers| ==>
         && providers[k].Snapshot() == sets[k]
         && providers[k].Untouched() == frames[k]
         && (valids[k] ==> providers[k].Valid())
  }

  ghost function FramesOf(ps: seq<Provider>): (r: seq<Frame>)
    reads ps
    ensures |r| == |ps| && forall k :: 0 <= k < |ps| ==> r[k] == ps[k].Untouched()
  {
    seq(|ps|, k requires 0 <= k < |ps| reads ps => ps[k].Untouched())
  }

  ghost function ValidsOf(ps: seq<Provider>): (r: seq<bool>)
    reads ps
    ensures |r| == |ps| && forall k :: 0 <= k < |ps| ==> r[k] == ps[k].Valid()
  {
    seq(|ps|, k requires 0 <= k < |ps| reads ps => ps[k].Valid())
  }

  /** One turn of the loop of `clearUrl`, on provider `i`, keeping what the loop keeps. */
  method TurnAt(js: Js, providers: seq<Provider>, i: nat, url: string, result: Outcome,
                ghost sets: seq<RuleSet>, ghost frames: seq<Frame>, ghost valids: seq<bool>)
    returns (next: Fallible<Outcome>)
    requires i < |providers| && Kept(providers, sets, frames, valids)
    modifies providers[i]
    ensures Kept(providers, sets, frames, valids)
    ensures next == Turn(js, sets[i], url, result)
  {
    next := TurnProvider(js, providers[i], url, result);
  }

  /** The body of the loop of `clearUrl`: a provider matching the current result's URL cleans the original URL. */
  method TurnProvider(js: Js, provider: Provider, url: string, result: Outcome) returns (next: Fallible<Outcome>)
    modifies provider
    ensures old(provider.Valid()) ==> provider.Valid()
    ensures provider.Untouched() == old(provider.Untouched())
    ensures provider.Snapshot() == old(provider.Snapshot())
    ensures next == Turn(js, provider.Snapshot(), url, result)
  {
    next := Ok(result);
    var matched := provider.MatchURL(js, result.url);
    if matched {
      next := provider.RemoveFieldsFormURL(js, url);
    }
  }

  /** The loop of `createProviders`: one new provider per entry, in order. */
  method NewProviders(entries: SerializedRules, referralMarketing: bool) returns (ps: seq<Provider>)
    ensures |ps| == |entries|
    ensures forall k :: 0 <= k < |ps| ==> fresh(ps[k]) && ps[k].name == entries[k].0
    ensures forall k :: 0 <= k < |ps| ==> ps[k].Snapshot() == Built(entries[k].1, referralMarketing)
    ensures forall k :: 0 <= k < |ps| ==> ps[k].Valid()
  {
    ps := [];
    for i := 0 to |entries|
      invariant |ps| == i
      invariant forall k :: 0 <= k < i ==> fresh(ps[k]) && ps[k].name == entries[k].0
      invariant forall k :: 0 <= k < i ==> ps[k].Snapshot() == Built(entries[k].1, referralMarketing)
      invariant forall k :: 0 <= k < i ==> ps[k].Valid()
    {
      var provider := new Provider(entries[i].0, entries[i].1, referralMarketing);
      ps := ps + [provider];
    }
  }

  // ---------------------------------------------------------------------
  // Properties

  /**
   * `clearUrl` returns either the original URL or the redirect target that
   * some provider computes from the original URL.
   */
  lemma {:induction false} ClearUrlResult(js: Js, sets: seq<RuleSet>, url: string, result: Outcome)
    requires !result.Redirect?
    ensures var r := ClearUrlFrom(js, sets, url, result);
            r.Ok? ==> r.value == url ||
                      exists k :: 0 <= k < |sets| && RemoveFields(js, sets[k], url) == Ok(Redirect(r.value))
    decreases |sets|
  {
    if sets != [] {
      var t := Turn(js, sets[0], url, result);
      var r := ClearUrlFrom(js, sets, url, result);
      if t.Ok? && t.value.Redirect? {
        assert RemoveFields(js, sets[0], url) == Ok(Redirect(r.value));
      } else if t.Ok? {
        ClearUrlResult(js, sets[1..], url, t.value);
        if r.Ok? && r.value != url {
          var k :| 0 <= k < |sets[1..]| && RemoveFields(js, sets[1..][k], url) == Ok(Redirect(r.value));
          assert sets[1..][k] == sets[k + 1];
        }
      }
    }
  }

  /**
   * Field stripping never shows: if no provider's cleaning of the original
   * URL is a redirect or throws, `clearUrl` returns the original URL.
   */
  lemma {:induction false} ClearUrlIgnoresCleaning(js: Js, sets: seq<RuleSet>, url: string, result: Outcome)
    requires !result.Redirect?
    requires forall k :: 0 <= k < |sets| ==> RemoveFields(js, sets[k], url).Ok? && !RemoveFields(js, sets[k], url).value.Redirect?
    ensures ClearUrlFrom(js, sets, url, result) == Ok(url)
    decreases |sets|
  {
    if sets != [] {
      assert forall k :: 0 <= k < |sets[1..]| ==> sets[1..][k] == sets[k + 1];
      ClearUrlIgnoresCleaning(js, sets[1..], url, Turn(js, sets[0], url, result).value);
    }
  }

  /**
   * The result the loop of `clearUrl` holds when it reaches provider `k`:
   * `None` when one of the providers before `k` threw or redirected, so
   * that the loop never gets there.
   */
  function ResultBefore(js: Js, sets: seq<RuleSet>, url: string, result: Outcome, k: nat): Option<Outcome>
    requires k <= |sets|
    decreases k
  {
    if k == 0 then Some(result)
    else
      match ResultBefore(js, sets, url, result, k - 1)
      case None => None
      case Some(o) =>
        match Turn(js, sets[k - 1], url, o)
        case Throws(_) => None
        case Ok(o') => if o'.Redirect? then None else Some(o')
  }

  /** Once the loop reaches provider `k`, the rest of it is the loop over the providers from `k` on. */
  lemma {:induction false} ClearUrlReaches(js: Js, sets: seq<RuleSet>, url: string, result: Outcome, k: nat, o: Outcome)
    requires k <= |sets|
    requires ResultBefore(js, sets, url, result, k) == Some(o)
    ensures ClearUrlFrom(js, sets, url, result) == ClearUrlFrom(js, sets[k..], url, o)
    decreases k
  {
    if k > 0 {
      var o0 := ResultBefore(js, sets, url, result, k - 1).value;
      ClearUrlReaches(js, sets, url, result, k - 1, o0);
      assert sets[k - 1..][0] == sets[k - 1];
      assert sets[k - 1..][1..] == sets[k..];
    }
  }

  /**
   * The first redirect decides `clearUrl`: when the loop reaches provider
   * `k` (the providers before it may have matched and cleaned) and `k`
   * matches the current result's URL and redirects, its target is the
   * answer, whatever the providers after it would do.
   */
  lemma ClearUrlFirstRedirect(js: Js, sets: seq<RuleSet>, url: string, k: nat, o: Outcome, target: string)
    requires k < |sets|
    requires ResultBefore(js, sets, url, Cleaned(url, false), k) == Some(o)
    requires Matches(js, sets[k], o.url) && RemoveFields(js, sets[k], url) == Ok(Redirect(target))
    ensures ClearUrlSpec(js, sets, url) == Ok(target)
  {
    ClearUrlReaches(js, sets, url, Cleaned(url, false), k, o);
    assert sets[k..][0] == sets[k];
  }

  /** Providers that do not match the URL are passed over with the result left as it is. */
  lemma {:induction false} NoMatchReaches(js: Js, sets: seq<RuleSet>, url: string, k: nat)
    requires k <= |sets|
    requires forall j :: 0 <= j < k ==> !Matches(js, sets[j], url)
    ensures ResultBefore(js, sets, url, Cleaned(url, false), k) == Some(Cleaned(url, false))
    decreases k
  {
    if k > 0 {
      NoMatchReaches(js, sets, url, k - 1);
    }
  }

  lemma {:induction false} ClearUrlSkip(js: Js, sets: seq<RuleSet>, url: string, k: nat)
    requires k <= |sets|
    requires forall j :: 0 <= j < k ==> !Matches(js, sets[j], url)
    ensures ClearUrlFrom(js, sets, url, Cleaned(url, false)) == ClearUrlFrom(js, sets[k..], url, Cleaned(url, false))
    decreases k
  {
    if k > 0 {
      assert forall j :: 0 <= j < k - 1 ==> sets[1..][j] == sets[j + 1];
      ClearUrlSkip(js, sets[1..], url, k - 1);
      assert sets[1..][k - 1..] == sets[k..];
    }
  }
}
