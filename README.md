# ClearURLs rule engine in Dafny

This project models the URL-cleaning rule engine of url-purify, the library
form of the ClearURLs browser extension, and proves properties of that model.

A provider is a named site pattern with five rule families: field rules, raw
rules, referral-marketing rules, exceptions and redirections. Each family is
an insertion-ordered set of regular expressions. To clean a URL, a matching
provider does the following, in order:

1. It unwraps a redirection, if one fires.
2. In the older extension variant, it cancels a blocked domain.
3. It deletes every raw-rule match from the whole text.
4. It deletes the query and fragment keys that match `^rule$`.
5. It reassembles the URL.

Cleaning loops run the providers in order. The model also covers the
instance redirector, the `Multimap` container, and the storage record with
its mappings.

Modules, one per source file:

- `Web` (web.dfy): the platform the code runs on.
  - Regular expressions, the WHATWG URL parser, `URLSearchParams` and
    `encodeURIComponent` are function-valued fields of a `Js` value passed
    as a parameter.
  - Only the laws a proof needs are required of them (`Lawful`).
  - A parsed URL keeps its port separately. It tells a missing query or
    fragment from one that is present but empty, as `href` does.
  - The `host` and `protocol` setters are written out.
  - `decodeURIComponent` is a concrete per-byte percent decoder.
  - A platform call either returns or throws (`Fallible`).
- `OrderedSets` (ordered_sets.dfy): `Record<string, boolean>` key sets as
  duplicate-free sequences. Assigning a key appends it if it is new;
  `delete` removes it; `Object.assign` is `Union`.
- `Tools` (lib/tools.ts): `isEmpty`, `isEncodedURI`, `decodeURL`,
  `urlSearchParamsToString` and `urlWithoutParamsAndHash`.
- `SearchParams`: deleting keys while iterating over the live
  `URLSearchParams` key list, as the platform runs it.
- `Pipeline`: the cleaning steps after redirection that both
  `removeFieldsFormURL` functions share, and the loops that implement them.
- `ProviderLib` (lib/provider.ts): the library `Provider` class.
- `ClearUrlsLib` (lib/main.ts): the `ClearURLs` class.
  - Its `clearUrl` is modelled as written: it returns only redirect targets,
    and otherwise the original URL.
  - It tests matching against `result.url` but always cleans the original
    URL.
- `LegacyProvider` (lib/index.ts): the extension's `Provider` class and its
  module-level `removeFieldsFormURL`. It adds:
  - enable/disable toggling;
  - an HTTP-method filter;
  - cancelling;
  - the site-blocked sentinel `javascript:void(0)`;
  - the provider-loop decision of `clearUrl`.
- `PureCleaning` (core_js/pureCleaning.ts): `_cleaning` as one ordered pass,
  and `pureCleaning` as the loop that repeats passes until a pass changes
  nothing.
- `Redirects` (lib/redirect-provider.ts): the redirect provider that moves a
  URL to a front-end instance.
- `Multimaps` (lib/utils/Multimap.ts): the `Multimap` class with its cached
  size as a class invariant.
- `StorageLib` (lib/storage.ts): the in-memory `storage` record with
  `setData`, `storageDataAsString`, `storeHashStatus`, `initSettings`,
  `initStorage` and `replaceOldURLs`.

Where the code mutates state (provider families, the `ClearURLs` provider
list, the multimap, the storage record, the loops), the model is a class or
a method with loop invariants. Each such method is proved equal to a
specification function, and the properties are proved about those functions.

## Model

| member | source | states |
|---|---|---|
| Tools.IsEmpty | lib/tools.ts:43 | true exactly when the object has no own property |
| Tools.IsEncodedURI | lib/tools.ts:103 | defined exactly when decoding succeeds; false exactly when one more decoding pass leaves the text unchanged |
| Tools.FullyDecoded | lib/tools.ts:85-89 | repeated decoding ends in a text that `isEncodedURI` reports as not encoded; the only failure is a URIError |
| Tools.DecodedURL | lib/tools.ts:84-97 | the result of `decodeURL` always starts with `http`; a fully decoded text that already starts with `http` gets no prefix, any other gets `http://` |
| Tools.DecodeURL | lib/tools.ts:84-97 | the while loop (decode while `isEncodedURI`, then prefix) returns or throws exactly what `DecodedURL` says |
| Tools.DecodePlainURL | lib/tools.ts:84-97 | a text without escapes only gains the scheme it lacks |
| Tools.DecodeTwiceEncoded | lib/tools.ts:84-97 | a target whose `:` and `/` were percent-encoded twice is decoded completely, to `http://host` |
| Tools.UrlSearchParamsToString | lib/tools.ts:149-161 | one entry per parameter in order: `key=encode(value)`, or the bare key for an empty value, joined with `&`; an empty list gives `""` |
| Tools.SearchParamsStringSplits | lib/tools.ts:149-161 | splitting the serialisation at `&` gives back the entries in order when no key or encoded value holds `&` (keys are never encoded) |
| Tools.UrlWithoutParamsAndHash | lib/tools.ts:65-77 | deletes the first occurrence of the search text, then of the hash text, and parses the rest (which may throw) |
| Tools.WithoutSearchAndHashIsOrigin | lib/tools.ts:65-77 | for a well-formed URL, the two deletions leave exactly protocol, credentials, host and path, followed by a `?` or `#` that was present with nothing after it (`search` and `hash` are empty for those, so they are not deleted) |
| Tools.SearchRemoved | lib/tools.ts:68-70 | for a well-formed URL, deleting the first occurrence of a non-empty `search` removes exactly the query, keeping a bare `?` and the fragment part |
| Tools.HashRemoved | lib/tools.ts:72-74 | after that, deleting the first occurrence of a non-empty `hash` removes exactly the fragment, keeping a bare `#` |
| SearchParams.Delete | lib/provider.ts:278 | `delete(name)` removes every entry with that name, keeps all others, and shrinks the list when the name was present |
| SearchParams.StripKeys | lib/provider.ts:276-281 | the key loop over the live list deletes as the platform iterator runs it, and reports a change exactly when the list got shorter |
| SearchParams.StripLiveUnchangedIff | lib/provider.ts:276-281 | the live key loop leaves the list unchanged if and only if no key matches `^rule$` |
| SearchParams.StripLiveKeeps | lib/provider.ts:276-281 | the live loop keeps every entry whose key does not match and adds none |
| SearchParams.StripLiveThenAll | lib/provider.ts:276-281 | what the live loop leaves differs from the intended result only by matching entries |
| SearchParams.StripLiveSkipsNext | lib/provider.ts:276-281 | two distinct matching keys in a row: the live loop deletes the first and skips the second |
| SearchParams.StripAll | lib/provider.ts:276-281 | the intended filter: an entry survives exactly when its key does not match |
| Pipeline.FirstMatch | lib/provider.ts:191-205 | the position of the first non-empty pattern, in insertion order, that matches; none when no pattern matches |
| Pipeline.MatchAny | lib/provider.ts:163-174 | the exception loop with its early `break` is true exactly when some exception matches |
| Pipeline.FindRedirection | lib/provider.ts:194-202 | the redirection loop stops at the first firing pattern |
| Pipeline.RawPass | lib/provider.ts:257-264 | after the raw rules, `changes` is false only when the text is unchanged |
| Pipeline.ApplyRawRules | lib/provider.ts:257-264 | the raw-rule loop replaces each rule away in turn and sets the flag when a step changed the text |
| Pipeline.RawPassNoMatch | lib/provider.ts:257-264 | when no raw rule matches, the text is unchanged and no change is reported |
| Pipeline.ApplyFieldRules | lib/provider.ts:275-289 | the rule loop with its two key loops strips query and fragment rule by rule, and reports a change exactly when one of them got shorter |
| Pipeline.StripRulesKeeps | lib/provider.ts:275-289 | field stripping keeps every entry whose key no rule matches and invents none |
| Pipeline.StripRulesNoMatch | lib/provider.ts:275-289 | with no key matching any rule, field stripping leaves the list alone |
| Pipeline.StripRulesShorter | lib/provider.ts:275-289 | field stripping either changes nothing or makes the list strictly shorter |
| Pipeline.Rebuild | lib/provider.ts:291-297 | reassembly: the base, then `?` and the query only when it is non-empty, then `#` and the fragment only when it is non-empty; then the first `?&` and the first `#&` are collapsed |
| Pipeline.ReassemblePlain | lib/provider.ts:291-297 | without stray `?`, `#` or a leading `&`, reassembly is plain concatenation, and empty parts add no mark |
| Pipeline.CleanFields | lib/provider.ts:257-303 | raw rules, re-parse, field stripping (only when query or fragment is non-empty) and reassembly give exactly `CleanTail` |
| Pipeline.CleanTailNoChanges | lib/provider.ts:257-303 | no matching raw rule and no matching key means `changes: false` |
| Pipeline.CleanTailNoParams | lib/provider.ts:274-303 | with neither query nor fragment entries, the text after the raw rules comes back as it is |
| Pipeline.CleanTailChangesIff | lib/provider.ts:257-303 | `changes` is true if and only if a raw rule altered the text or a key was deleted |
| ProviderLib.Provider.constructor | lib/provider.ts:25-71 | a complete provider starts with `.*`; every declared entry of each family is added in order; the rule set equals `Built(p, referralMarketing)` |
| ProviderLib.Provider.AddRules | lib/provider.ts:46-49 | the constructor's loop adds each declared rule in order and touches no other family |
| ProviderLib.Provider.AddRawRules | lib/provider.ts:51-54 | the same for raw rules |
| ProviderLib.Provider.AddReferralMarketingRules | lib/provider.ts:56-59 | the same for referral-marketing rules |
| ProviderLib.Provider.AddExceptions | lib/provider.ts:61-64 | the same for exceptions |
| ProviderLib.Provider.AddRedirections | lib/provider.ts:66-68 | the same for redirections |
| ProviderLib.Provider.AddRule | lib/provider.ts:85-100 | adds the rule to the field rules as a set element: a present rule leaves the family unchanged; other families are untouched |
| ProviderLib.Provider.AddRawRule | lib/provider.ts:123-125 | the same for raw rules |
| ProviderLib.Provider.AddReferralMarketing | lib/provider.ts:141-143 | the same for referral-marketing rules |
| ProviderLib.Provider.AddException | lib/provider.ts:152-154 | the same for exceptions |
| ProviderLib.Provider.AddRedirection | lib/provider.ts:182-184 | the same for redirections |
| ProviderLib.Provider.GetRules | lib/provider.ts:107-115 | returns the active rules (with referral marketing blocked, the union with the referral rules); the `Object.assign` fold is permanent, and the answer of any later call is unchanged |
| ProviderLib.Provider.GetRawRules | lib/provider.ts:132 | the enabled raw rules, each once |
| ProviderLib.Provider.MatchException | lib/provider.ts:163-174 | true exactly when one of the provider's own exceptions matches; false when the provider has none of its own |
| ProviderLib.Provider.GetRedirection | lib/provider.ts:191-205 | capture group 1 of the first firing redirection, null when none fires or the capture is undefined or empty |
| ProviderLib.Provider.MatchURL | lib/provider.ts:214-215 | true exactly when the site pattern matches and no exception does |
| ProviderLib.Provider.RemoveFieldsFormURL | lib/provider.ts:224-304 | returns or throws exactly `RemoveFields` of the provider's rule set; the rule set is left as it was, the field rules become the active rules of `getRules`, every other field is kept, and a valid provider stays valid |
| ProviderLib.BuiltFamilies | lib/provider.ts:40-71 | each family of a fresh provider is a set holding exactly the declared entries; a complete provider's first field rule is `.*`; referral rules count as field rules only when referral marketing is blocked |
| ProviderLib.BuiltRules | lib/provider.ts:40-70 | the field rules are duplicate-free and are exactly the catch-all, the declared rules and (when blocked) the referral rules |
| ProviderLib.BuiltCatchAllFirst | lib/provider.ts:40 | a complete provider's catch-all rule comes before every declared rule |
| ProviderLib.ActiveRulesStable | lib/provider.ts:107-115 | fetching the active rules a second time gives the same rules |
| ProviderLib.RedirectionFirst | lib/provider.ts:191-205 | the first firing redirection in insertion order, with a non-empty capture, decides the answer |
| ProviderLib.RedirectionNull | lib/provider.ts:191-205 | null when no redirection fires or the first firing one captures the empty text |
| ProviderLib.RedirectionWins | lib/provider.ts:244-252 | a redirection gives `{redirect: true, url: decodeURL(capture)}`, starting with `http`, and no raw or field rule runs; decoding may only throw a URIError |
| ProviderLib.LibraryOutcomes | lib/provider.ts:224-304 | the library provider never cancels, and it redirects exactly when a redirection applies |
| ProviderLib.MatchesWithoutExceptions | lib/provider.ts:214-215 | without exceptions of its own, `matchURL` is the site pattern alone |
| ClearUrlsLib.EntryNames | lib/main.ts:36 | one provider name per rules-file entry, in entry order |
| ClearUrlsLib.ClearURLs.constructor | lib/main.ts:19-31 | `referralMarketing` defaults to true; without `rulesFromMemory` no provider exists, otherwise there is one provider per entry, each of them valid |
| ClearUrlsLib.ClearURLs.CreateProviders | lib/main.ts:33-43 | the provider map is replaced by one fresh provider per entry, built with the object's `referralMarketing` flag, each of them valid |
| ClearUrlsLib.NewProviders | lib/main.ts:36-42 | the loop builds one provider per entry, in order, each equal to a freshly built rule set and valid |
| ClearUrlsLib.ClearURLs.ClearUrl | lib/main.ts:45-71 | the provider loop returns exactly `ClearUrlSpec`; the providers' rule sets and every field but the field rules are left as they were, and valid providers stay valid |
| ClearUrlsLib.TurnProvider | lib/main.ts:57-59 | one turn: a provider matching the current result's URL cleans the original URL; the provider keeps its rule set and every field but the field rules, and stays valid if it was |
| ClearUrlsLib.TurnAt | lib/main.ts:56-59 | the loop body on provider `i` of the list: its answer is `Turn` on that provider's rule set, and every provider keeps its rule set, its other fields and its validity |
| ClearUrlsLib.ClearUrlResult | lib/main.ts:56-70 | `clearUrl` returns either the original URL or a redirect target that some provider computes from the original URL |
| ClearUrlsLib.ClearUrlIgnoresCleaning | lib/main.ts:56-70 | when no provider's cleaning redirects, the original URL comes back: field stripping never reaches the caller |
| ClearUrlsLib.ClearUrlReaches | lib/main.ts:56-67 | once the loop reaches provider `k` with result `o` (every earlier provider either skipped or cleaned without redirecting or throwing), the rest of `clearUrl` is the loop over the providers from `k` with `o` |
| ClearUrlsLib.ClearUrlFirstRedirect | lib/main.ts:56-66 | the first redirect decides: when the loop reaches provider `k`, possibly after earlier providers matched and cleaned, and `k` matches the current `result.url` and redirects, `clearUrl` returns that target whatever the later providers are |
| ClearUrlsLib.NoMatchReaches | lib/main.ts:56-59 | providers that do not match the URL leave the initial result in place for the next one |
| ClearUrlsLib.ClearUrlSkip | lib/main.ts:56-59 | providers that do not match are passed over |
| LegacyProvider.Families.With | lib/index.ts:145-158 | replacing one family's record changes that family only |
| LegacyProvider.Toggle | lib/index.ts:219-238 | moving a rule into one record and out of the other keeps both records sets and introduces no overlap |
| LegacyProvider.ToggledOk | lib/index.ts:219-238 | after toggling, the rule is only on the requested side; every family stays a set, and enabled and disabled stay disjoint |
| LegacyProvider.WithOk | lib/index.ts:219-238 | replacing one family by sets keeps all families sets |
| LegacyProvider.Provider.constructor | lib/index.ts:169-182 | a complete provider is canceling and has `.*`; every other family starts empty |
| LegacyProvider.Provider.ShouldForceRedirect | lib/index.ts:187 | the constructor's `forceRedirection` flag |
| LegacyProvider.Provider.GetName | lib/index.ts:192 | the constructor's name |
| LegacyProvider.Provider.IsCaneling | lib/index.ts:204 | a valid provider cancels exactly when it was built as a complete provider (lib/index.ts:177) |
| LegacyProvider.Provider.SetURLPattern | lib/index.ts:197-199 | sets the site pattern and changes nothing else |
| LegacyProvider.Provider.ApplyRule | lib/index.ts:219-238 | enabling puts the rule into the enabled record and out of the disabled one, disabling does the opposite; disjointness is preserved |
| LegacyProvider.Provider.AddRule | lib/index.ts:247-249 | `applyRule` on the field rules: enabling adds the rule to the enabled record and removes it from the disabled one, disabling the reverse, every other entry kept; disjoint records stay disjoint; other families, pattern, methods, name and flags unchanged |
| LegacyProvider.Provider.AddRawRule | lib/index.ts:273-280 | `applyRule` on the raw rules: enabling adds the rule to the enabled record and removes it from the disabled one, disabling the reverse, every other entry kept; disjoint records stay disjoint; other families, pattern, methods, name and flags unchanged |
| LegacyProvider.Provider.AddReferralMarketing | lib/index.ts:296-303 | `applyRule` on the referral-marketing rules: enabling adds the rule to the enabled record and removes it from the disabled one, disabling the reverse, every other entry kept; disjoint records stay disjoint; other families, pattern, methods, name and flags unchanged |
| LegacyProvider.Provider.AddException | lib/index.ts:312-326 | the same disjoint toggling for exceptions, written out inline: the enabled and disabled records become the old ones with the entry added on one side and removed from the other, every other entry kept; disjoint records stay disjoint; everything else unchanged |
| LegacyProvider.Provider.AddRedirection | lib/index.ts:380-394 | the same disjoint toggling for redirections, written out inline: the enabled and disabled records become the old ones with the entry added on one side and removed from the other, every other entry kept; disjoint records stay disjoint; everything else unchanged |
| LegacyProvider.Provider.AddMethod | lib/index.ts:333-337 | appends the method unless it is listed already, so no duplicates |
| LegacyProvider.Provider.MatchMethod | lib/index.ts:345-348 | true with an empty method list, otherwise membership |
| LegacyProvider.Provider.GetRules | lib/index.ts:256-264 | the active rules for the global referral-marketing flag; with referral marketing blocked the union is written back for good |
| LegacyProvider.Provider.GetRawRules | lib/index.ts:287 | the enabled raw rules, each once, none of them disabled |
| LegacyProvider.Provider.MatchException | lib/index.ts:357-371 | true for the sentinel whatever the exceptions are; otherwise true exactly when one of the provider's own enabled exceptions matches |
| LegacyProvider.Provider.MatchURL | lib/index.ts:209-210 | true exactly when the pattern matches and the URL is neither the sentinel nor excepted |
| LegacyProvider.Provider.GetRedirection | lib/index.ts:401-415 | capture group 1 of the first firing enabled redirection, with an undefined group left as `undefined` |
| LegacyProvider.RemoveFieldsFormURL | lib/index.ts:44-135 | returns or throws exactly `RemoveFields` of the provider's rule set; the rule set is left as it was, the enabled field rules become the active rules of `getRules`, every other field (name, pattern, disabled records, flags, methods) is kept, and a valid provider stays valid |
| LegacyProvider.SentinelNeverMatches | lib/index.ts:357-371 | no provider matches `javascript:void(0)` |
| LegacyProvider.RemoveFieldsOrder | lib/index.ts:66-81 | a redirection beats cancelling; a cancel needs a canceling provider and domain blocking, and hands the URL back unchanged |
| LegacyProvider.UndefinedCapture | lib/index.ts:405-408 | an undefined capture group still redirects, to `http://undefined` |
| LegacyProvider.ClearUrl | lib/index.ts:625-706 | `clearUrl`'s decision is exactly `Decide` on the providers' rule sets; every provider keeps its rule set, name, pattern, disabled records, flags and methods, and stays valid if it was |
| LegacyProvider.ConsultProvider | lib/index.ts:645-700 | one provider's turn gives exactly `Consult`'s answer; the provider keeps its rule set and every field but the enabled field rules, and stays valid if it was |
| LegacyProvider.ConsultProviders | lib/index.ts:644-701 | the provider loop returns exactly `DecideFrom`; every provider keeps its rule set and every field but the enabled field rules, and stays valid if it was |
| LegacyProvider.ConsultAt | lib/index.ts:645-700 | the loop body on provider `i` of the list: its answer is `Consult` on that provider's rule set, an empty answer leaves a cleaned result without changes, and every provider keeps its rule set, its other fields and its validity |
| LegacyProvider.DecideStep | lib/index.ts:644-701 | the loop from provider `i` on asks provider `i` and goes on only when it has nothing to say |
| LegacyProvider.PingBlockedFirst | lib/index.ts:634-639 | ping blocking cancels before any provider runs |
| LegacyProvider.DecideFirst | lib/index.ts:644-700 | the first provider that lets the request through, matches, and redirects, cancels or changes something ends the scan with its answer |
| LegacyProvider.DecideFirstFrom | lib/index.ts:644-700 | the same, for the loop from any provider on |
| LegacyProvider.ConsultPasses | lib/index.ts:645-700 | the scan goes on exactly when the provider is filtered out, does not match, or its cleaning is unchanged |
| LegacyProvider.AnswerUnchanged | lib/index.ts:654-700 | a provider's result ends the scan unless it is an unchanged cleaning |
| PureCleaning.Cleaning | core_js/pureCleaning.ts:42-64 | `_cleaning` is exactly `Pass`: providers in array order, each matching one gets the URL as rewritten before it, and the first redirect ends the pass; every provider keeps its rule set and its other fields, and stays valid if it was |
| PureCleaning.VisitProvider | core_js/pureCleaning.ts:46-56 | a provider that does not match leaves the URL as it is; the `result` reset means no stale redirect carries over; the provider keeps its rule set and every field but the enabled field rules, and stays valid if it was |
| PureCleaning.VisitAt | core_js/pureCleaning.ts:46-56 | the loop body on provider `i` of the list: its answer is `Visit` on that provider's rule set, and every provider keeps its rule set, its other fields and its validity |
| PureCleaning.PureCleaningLoop | core_js/pureCleaning.ts:27-37 | the do-while loop, cut off after `fuel` passes, returns exactly `Stabilize`; every provider keeps its rule set and its other fields, and stays valid if it was |
| PureCleaning.CleaningPasses | core_js/pureCleaning.ts:27-37 | the passes of the do-while loop, with the providers answering as they did before the loop: the result is exactly `Stabilize` from the starting URL, and every provider keeps its rule set, its other fields and its validity |
| PureCleaning.StabilizeFixpoint | core_js/pureCleaning.ts:31-36 | if `pureCleaning(u)` returns `r`, then `_cleaning(r) == r` |
| PureCleaning.StabilizeIdempotent | core_js/pureCleaning.ts:31-36 | cleaning a cleaned URL again gives it back |
| PureCleaning.StabilizeMoreFuel | core_js/pureCleaning.ts:31-34 | once the loop has ended, more passes give the same answer |
| PureCleaning.PassNoMatch | core_js/pureCleaning.ts:43-63 | if no provider matches, `_cleaning(u) == u` |
| PureCleaning.NoMatchStable | core_js/pureCleaning.ts:31-36 | if no provider matches, `pureCleaning(u) == u` after one pass |
| PureCleaning.PassReaches | core_js/pureCleaning.ts:45-61 | once the pass reaches provider `k` with URL `u` (each earlier matching provider has rewritten the URL, none redirected or threw), the rest of the pass is the pass over the providers from `k` on `u` |
| PureCleaning.PassFirstRedirect | core_js/pureCleaning.ts:53-60 | the first redirect ends the pass: when the pass reaches provider `k` with the URL earlier providers left, and `k` matches it and redirects, the pass returns that target whatever the later providers are |
| PureCleaning.PassCancelGoesOn | core_js/pureCleaning.ts:53-60 | a cancelling provider does not end the pass: the URL goes on unchanged to the next provider |
| Redirects.Flatten | lib/redirect-provider.ts:15 | the instances of all services: each service's instances are included, nothing else, and the first service's come first |
| Redirects.FlattenAppend | lib/redirect-provider.ts:15 | flattening two lists of services gives the first one's instances followed by the second one's |
| Redirects.FlattenOne | lib/redirect-provider.ts:15 | a single service contributes exactly its own instance list |
| Redirects.FlattenBlock | lib/redirect-provider.ts:15 | service `k`'s instances appear as one block, in their order and once each, right after the instances of the services before it |
| Redirects.FlattenLength | lib/redirect-provider.ts:15 | the number of instances is the sum of the services' counts, so no instance is duplicated or lost |
| Redirects.RedirectProvider.MatchURL | lib/redirect-provider.ts:19 | true exactly when the mapping's pattern matches the URL case-insensitively |
| Redirects.MatchFollowsMapping | lib/redirect-provider.ts:14-19 | matching depends only on the mapping, not on the services or the pick mode |
| Redirects.RandomIndex | lib/redirect-provider.ts:27 | `Math.floor(random * n)` lies in `[0, n)` for a non-empty list |
| Redirects.RedirectProvider.Pick | lib/redirect-provider.ts:24-27 | an instance exists exactly when the list is non-empty; it is one of the instances, and `instances[0]` in `first` mode |
| Redirects.RedirectProvider.RedirectURL | lib/redirect-provider.ts:21-45 | the input must parse; with no instance or an empty one, the URL is unchanged and `changes` is false; otherwise `changes` is true |
| Web.SetHost | lib/redirect-provider.ts:38 | the `host` setter replaces the host name; a port given with it replaces the URL's port unless it is the default of the URL's scheme; without a port the URL keeps its own; nothing else changes |
| Web.SetProtocol | lib/redirect-provider.ts:39 | the `protocol` setter leaves the URL alone when switching between a special and another scheme or into `file:` with credentials or a port; otherwise it sets the scheme and drops a port that is the new scheme's default; nothing else changes |
| Redirects.Moved | lib/redirect-provider.ts:38-39 | the moved URL keeps credentials, path, query and fragment, takes the instance's host name, keeps its own port when the instance has none (unless it is the new scheme's default), and takes the instance's scheme when both are special and neither is `file:` |
| Redirects.NewRedirectProvider | lib/redirect-provider.ts:9-17 | keeps the mapping's pattern and mode (default `first`), and its instances are the flattening of the mapped services (in order and with multiplicity by `FlattenAppend` and `FlattenBlock`) |
| Redirects.RedirectKeepsPath | lib/redirect-provider.ts:36-44 | a redirect returns the serialisation of `Moved` applied to the URL and the instance's text before the first pipe character |
| Redirects.ExplicitPortKept | lib/redirect-provider.ts:38-39 | a move to an instance of the same scheme without a port changes only the host name, so an explicit port such as `:8443` survives |
| Redirects.DefaultPortDropped | lib/redirect-provider.ts:38-39 | a URL whose port is the default of the instance's scheme ends up without a port |
| Redirects.FirstIgnoresRandom | lib/redirect-provider.ts:24-26 | in `first` mode the random draw does not matter |
| Redirects.NoInstancesNoChange | lib/redirect-provider.ts:29-34 | with no instances the URL comes back unchanged |
| Redirects.InstanceWithoutExtras | lib/redirect-provider.ts:36 | an instance without a pipe character is used whole |
| Redirects.InstanceExtrasIgnored | lib/redirect-provider.ts:36 | extras after the first pipe character are ignored |
| Redirects.FirstPicksFirstService | lib/redirect-provider.ts:12-26 | in `first` mode the pick is the first instance of the first service |
| Multimaps.Multimap.constructor | lib/utils/Multimap.ts:26-41 | empty, with size 0 |
| Multimaps.Multimap.Size | lib/utils/Multimap.ts:42-44 | the cached size equals the number of pairs `entries()` yields |
| Multimaps.Multimap.Get | lib/utils/Multimap.ts:45-51 | a value (copy) holding exactly the key's values, empty for an absent key, without duplicates |
| Multimaps.Multimap.Has | lib/utils/Multimap.ts:66-68 | true exactly when the key is mapped, even to an empty set |
| Multimaps.Multimap.HasEntry | lib/utils/Multimap.ts:69-75 | true exactly when the pair is one that `entries()` yields |
| Multimaps.Multimap.Keys | lib/utils/Multimap.ts:119-121 | every mapped key once |
| Multimaps.Multimap.Put | lib/utils/Multimap.ts:52-65 | on a present pair: false, nothing changes; otherwise true, the value joins its key's set (a new key goes last), size grows by one, and `hasEntry` and `has` hold; the invariant is kept |
| Multimaps.Multimap.Delete | lib/utils/Multimap.ts:76-83 | true exactly when the key was mapped; the key and all its values go, and size drops by the set's size |
| Multimaps.Multimap.DeleteEntry | lib/utils/Multimap.ts:84-94 | true exactly when the pair was present; then the value leaves the set and size drops by one; the key stays mapped; otherwise nothing changes |
| Multimaps.Multimap.Clear | lib/utils/Multimap.ts:95-98 | size 0 and no key mapped |
| Multimaps.Multimap.Entries | lib/utils/Multimap.ts:99-109 | each stored pair exactly once, key by key, so there are `size` of them |
| Multimaps.Multimap.Values | lib/utils/Multimap.ts:110-118 | the value of each pair `entries()` yields, in that order, `size` of them |
| Multimaps.AppendPairs | lib/utils/Multimap.ts:103-105 | the inner generator loop appends one key's pairs in set order |
| Multimaps.EntriesFacts | lib/utils/Multimap.ts:99-109 | under the invariant, the pairs yielded are the stored ones, each once, `size` of them |
| Multimaps.PutKeeps | lib/utils/Multimap.ts:57-64 | adding a new pair keeps the invariant, with the count up by one |
| Multimaps.DeleteEntryKeeps | lib/utils/Multimap.ts:84-94 | removing a stored pair keeps the invariant, with the count down by one |
| StorageLib.ReplaceOldURLs | lib/storage.ts:229-256 | each listed legacy location maps to its replacement; every other text is returned unchanged |
| StorageLib.ReplaceOldURLsSettles | lib/storage.ts:231-252 | two applications reach a fixpoint; a legacy location ends at a `rules2.clearurls.xyz` one |
| StorageLib.HashStatus | lib/storage.ts:273-294 | `hash_status_code_n` for n in {1, 2, 3, 5}; `hash_status_code_4` for 4 and any other code |
| StorageLib.Storage.StoreHashStatus | lib/storage.ts:273-294 | only `hashStatus` changes, to `HashStatus(code)` |
| StorageLib.Storage.GetData | lib/storage.ts:116 | the stored value, undefined for an absent key |
| StorageLib.Storage.StorageDataAsString | lib/storage.ts:50-62 | throws only for `types` when it is absent or null; undefined exactly for another absent key |
| StorageLib.Storage.SetData | lib/storage.ts:130-146 | stores, under that key only, the parsed JSON, the migrated URL, the comma-split `types` list or the value as given; on a throw nothing changes |
| StorageLib.ReloadRestores | lib/storage.ts:50-146 | `storageDataAsString` followed by `setData` gives the value back: JSON keys by the round trip, a non-empty `types` list without commas, an unmigrated URL, any other value |
| StorageLib.TypesCommaSplits | lib/storage.ts:57-141 | a `types` element that holds a comma comes back as two elements |
| StorageLib.TypesEmptyGrows | lib/storage.ts:57-141 | an empty `types` list comes back as `[""]` |
| StorageLib.Storage.InitSettings | lib/storage.ts:164-223 | every default is assigned over the record, in order |
| StorageLib.Storage.InitStorage | lib/storage.ts:151-159 | defaults first, then each supplied item through `setData`, stopping at the first throw; after a throw at item `i` the record holds the defaults and the items before `i`, and item `i` is the one whose storing throws |
| StorageLib.Storage.SetItems | lib/storage.ts:154-158 | `setData` on each item in order: the record ends as `Load` from the old record, or, at the first item whose storing throws, holds the items before it and returns that error |
| StorageLib.LoadExtend | lib/storage.ts:154-158 | loading one more item continues from the record the shorter load left, or throws when that item's storing throws; a load that threw stays thrown |
| StorageLib.LoadSuppliedWin | lib/storage.ts:151-159 | each supplied key ends up with what `setData` stores for it, so supplied keys win over the defaults |
| StorageLib.LoadKeeps | lib/storage.ts:151-159 | a key no item names keeps its value |
| StorageLib.AssignLast | lib/storage.ts:165-221 | an assignment no later one overrides is what the record holds |
| StorageLib.AssignKeeps | lib/storage.ts:165-221 | a key no default names keeps its value |
| StorageLib.DefaultGlobalStatus | lib/storage.ts:168 | after `initSettings` the extension is on |
| StorageLib.DefaultReferralMarketing | lib/storage.ts:179 | after `initSettings` referral-marketing rules are applied |
| StorageLib.DefaultDomainBlocking | lib/storage.ts:181 | after `initSettings` domain blocking is on |
| StorageLib.DefaultPingBlocking | lib/storage.ts:182 | after `initSettings` ping blocking is on |

## Left out

- Network, hashing and start-up are I/O and asynchronous promises. This
  covers `getHash`, `fetchFromURL`, `deactivateOnFailure`, the `start`
  wiring with its `createProviders` (lib/index.ts:418-714), `sha256` and
  `isStorageAvailable`.
- Browser APIs are not part of this model: `browser.storage.local`,
  `genesis`, `saveOnDisk`, `saveOnExit`, `deferSaveOnDisk`,
  `deleteFromDisk`, `getEntireData` and `storageAsJSON`. The
  `browser.tabs.update` and `browser.runtime.getURL` calls in `clearUrl`
  appear only as the `TabUpdateThenCancel` and `BlockPageThenCancel`
  answers.
- Platform primitives are parameters, not implementations:
  - JavaScript regular expressions (case-insensitive `test`, capture group
    1, global replacement);
  - the WHATWG URL parser;
  - `URLSearchParams` parsing and serialisation, and `encodeURIComponent`.
  `URLHashParams`, whose source is not part of this model, is assumed to
  parse and serialise the fragment as `URLSearchParams` does the query.
- ProviderLib.Provider.constructor, ProviderLib.Provider.MatchException,
  ProviderLib.Provider.GetRedirection, ProviderLib.Provider.RemoveFieldsFormURL,
  LegacyProvider.Provider.SetURLPattern, LegacyProvider.Provider.MatchException,
  LegacyProvider.Provider.GetRedirection, LegacyProvider.RemoveFieldsFormURL
  and Redirects.NewRedirectProvider take every pattern to be a valid
  regular expression. In the source, `new RegExp(p, flags)` throws
  `SyntaxError` on an invalid pattern. That happens in lib/provider.ts
  (lines 77, 169, 195, 198, 259, 277 and 284), in lib/redirect-provider.ts
  (line 14) and in lib/index.ts (lines 88, 106, 113, 198, 366, 405 and 408).
  The throw aborts building a provider, and with it `new ClearURLs`, or it
  aborts the whole `removeFieldsFormURL` or `clearUrl` call. The model's
  `test`, `capture1` and `replaceAll` are total, so this error path is not
  modelled.
- The `host` and `protocol` setters are written out for URLs with a host.
  URLs with an opaque path (such as `mailto:`), the re-encoding of an
  opaque host and IDNA host processing are not modelled: the setter takes
  the instance's already parsed host name as it is.
- `decodeURIComponent` decodes each `%XX` escape to one character. Assembling
  multi-byte UTF-8 sequences, and rejecting invalid ones, is not modelled.
- `JSON.parse` and `JSON.stringify` are a parameter. Only their round-trip
  law is assumed. Numbers are integers, and the key order of integer-like
  object keys is not modelled.
- `Math.random` is a real-valued parameter in `[0, 1)`. `randomASCII` is
  not modelled.
- ProviderLib.Provider.MatchException, LegacyProvider.Provider.MatchException
  and ProviderLib.MatchesWithoutExceptions test only the provider's own
  exceptions. In the source, lib/tools.ts:108 assigns
  `Object.prototype.getOrDefault`, an enumerable inherited key. So the
  `for…in` loops over the exception records (lib/provider.ts:166,
  lib/index.ts:363) also test the pattern `getOrDefault` with the `i` flag,
  and any URL that contains "getordefault" in any case is excepted by every
  provider. Such a URL is then never cleaned or redirected. The `for…in`
  loops over the redirection records (lib/provider.ts:194, lib/index.ts:404)
  would visit the same key, but only after a provider has matched, which
  that URL never does. The model leaves the inherited key out.
- The prototype patches `rmEmpty`, `flatten` and `getOrDefault` are not
  modelled as functions: they rely on an arrow function's `this`. The rules file is
  taken as given, with a missing list read as empty and a missing flag as
  false.
- `extractHost` and `countFields` are not used by the cleaning.
  `extractFragments` is folded into the parsing of the fragment.
- The redirect-mappings data and the type declarations are static
  descriptions. The mapping, the service and the pick mode are defined
  here instead.
- `getBrowser` is the `Browser` parameter of `initSettings`; the request
  type lists for Firefox and Chrome are copied in full.
- `Multimap.forEach` and `Multimap[Symbol.iterator]` are not modelled. They
  only re-yield `entries()`. Generators are returned as finished sequences.
- The unused options of the `ClearURLs` constructor (`hashURL`, `ruleURL`,
  `hashFromMemory`, `onFetchedRules`) are not modelled.
- ClearUrlsLib.ClearURLs.ClearUrl: the provider map is a name list and a
  provider list in entry order, so `Object.entries` key ordering of
  integer-like names is not modelled.
- PureCleaning.PureCleaningLoop: the do-while loop of `pureCleaning` has no
  termination argument in the source. The model allows at most `fuel`
  passes and reports `None` when they run out. The fixpoint and
  idempotence lemmas are stated for runs that ended.
- LegacyProvider.Provider.constructor: the pattern is `""` until
  `setURLPattern` is called. The source leaves it undefined.
- LegacyProvider.ClearUrl: `storage` is a `Settings` parameter rather than
  the global record. The request is reduced to its URL, resource type and
  HTTP method.
- ProviderLib.Provider.GetRules and LegacyProvider.Provider.GetRules: these
  keep the `NoDup` invariant only. A permanent `Object.assign` fold can
  move a referral rule into the field rules, so `Valid` does not require
  the families to be disjoint.
- ProviderLib.Provider.RemoveFieldsFormURL and
  LegacyProvider.RemoveFieldsFormURL do not require `Valid()`. No cleaning
  path needs it, and the source demands nothing of its callers.

## Findings

| source | as written | input that shows it | evidently intended | confidence | as-written member | corrected member |
|---|---|---|---|---|---|---|
| lib/provider.ts:276-281 (also lib/index.ts:105-117) | `fields.delete(field)` inside `for (const field of fields.keys())`. The key iterator indexes the live list, so the entry that moves into the deleted position is never visited. | rule `utm_[a-z]+` on the query `utm_source=a&utm_medium=b`: `utm_medium` survives | every key matching `^rule$` is removed | not executed | SearchParams.StripLive, shown by SearchParams.StripLiveSkipsNext | SearchParams.StripAll, with SearchParams.StripLiveThenAll |

The cleaning functions keep the as-written loop, because they model what the
code does. `SearchParams.StripLiveThenAll` proves the relation between the
two: filtering the as-written result with the intended one gives exactly the
intended result. So the as-written loop only ever leaves extra matching
entries behind, and never loses a non-matching one.
