/**
 * Redirecting a site to an alternative front-end instance
 * (lib/redirect-provider.ts): the URL keeps its path, query and fragment
 * and takes the host and protocol of an instance of one of the mapped
 * services.
 */
module Redirects {
  import opened Web

  /** How an instance is chosen: always the first, or uniformly at random. */
  datatype PickMode = First | Random

  /** An entry of the redirect mappings: the sites it covers and the services it sends them to. */
  datatype Mapping = Mapping(name: string, urlPattern: string, targets: seq<string>)

  /** A front-end service with its instance URLs; an instance may carry `|`-separated extras. */
  datatype Service = Service(name: string, instances: seq<string>)

  /** What `redirectURL` returns. */
  datatype Redirected = Redirected(url: string, changes: bool)

  /** `services.map(s => s.instances).flat()`. */
  function Flatten(services: seq<Service>): (r: seq<string>)
    ensures forall k :: 0 <= k < |services| ==> forall x :: x in services[k].instances ==> x in r
    ensures forall x :: x in r ==> exists k :: 0 <= k < |services| && x in services[k].instances
    ensures services != [] ==> |r| >= |services[0].instances| && r[..|services[0].instances|] == services[0].instances
    decreases |services|
  {
    if services == [] then []
    else
      var rest := Flatten(services[1..]);
      assert forall x :: x in rest ==> exists k :: 1 <= k < |services| && x in services[k].instances by {
        forall x | x in rest ensures exists k :: 1 <= k < |services| && x in services[k].instances {
          var j :| 0 <= j < |services[1..]| && x in services[1..][j].instances;
          assert services[j + 1] == services[1..][j];
        }
      }
      assert forall k :: 1 <= k < |services| ==> services[k] == services[1..][k - 1];
      services[0].instances + rest
  }

  /** The position `Math.floor(random * n)` for `0 <= random < 1`. */
  function RandomIndex(random: real, n: nat): (k: int)
    requires 0.0 <= random < 1.0
    ensures n > 0 ==> 0 <= k < n
    ensures n == 0 ==> k == 0
  {
    var x := random * n as real;
    assert 0.0 <= x;
    assert n > 0 ==> x < n as real;
    x.Floor
  }

  datatype RedirectProvider = RedirectProvider(urlPattern: string, instances: seq<string>, mode: PickMode)
  {
    /** `matchURL`: the mapping's pattern, case-insensitively; the instances play no part. */
    function MatchURL(js: Js, url: string): (r: bool)
      ensures r <==> js.test(urlPattern, url)
    {
      js.test(urlPattern, url)
    }

    /**
     * The instance `redirectURL` picks; `None` for an undefined element,
     * which only happens when there are no instances.
     */
    function Pick(random: real): (r: Option<string>)
      requires 0.0 <= random < 1.0
      ensures r.Some? <==> instances != []
      ensures r.Some? ==> r.value in instances
      ensures r.Some? && mode == First ==> r.value == instances[0]
    {
      var k := if mode == First then 0 else RandomIndex(random, |instances|);
      if 0 <= k < |instances| then Some(instances[k]) else None
    }

    /**
     * `redirectURL(url)`: the URL is parsed first; with no instance (or an
     * empty one) it comes back unchanged; otherwise the part of the
     * instance before the first `|` is parsed and its host and then its
     * protocol are assigned to the URL (`Moved`).
     */
    function RedirectURL(js: Js, url: string, random: real): (r: Fallible<Redirected>)
      requires 0.0 <= random < 1.0
      ensures r.Throws? ==> r.error == TypeError
      ensures r.Ok? ==> js.parse(url).Some?
      ensures r.Ok? && !r.value.changes ==> r.value.url == url && (Pick(random).None? || Pick(random).value == "")
      ensures r.Ok? && r.value.changes ==> Pick(random).Some? && Pick(random).value != ""
    {
      match js.parse(url)
      case None => Throws(TypeError)
      case Some(u) =>
        match Pick(random)
        case None => Ok(Redirected(url, false))
        case Some(domain) =>
          if domain == "" then Ok(Redirected(url, false))
          else
            match js.parse(Split(domain, '|')[0])
            case None => Throws(TypeError)
            case Some(d) => Ok(Redirected(Moved(u, d).Href(), true))
    }
  }

  /**
   * `urlObject.host = domainUrl.host; urlObject.protocol = domainUrl.protocol`:
   * the URL keeps its credentials, path, query and fragment and takes the
   * instance's host name. It keeps its own port when the instance has none,
   * and loses any port that is the default of its scheme. The scheme changes
   * only between two special schemes (or two other ones), `file:` aside.
   */
  function Moved(u: Url, d: Url): (w: Url)
    ensures w.credentials == u.credentials && w.pathname == u.pathname
    ensures w.query == u.query && w.fragment == u.fragment
    ensures w.hostname == d.hostname
    ensures IsSpecial(u.protocol) != IsSpecial(d.protocol) ==> w.protocol == u.protocol
    ensures IsSpecial(u.protocol) == IsSpecial(d.protocol) && u.protocol != "file:" && d.protocol != "file:" ==>
              w.protocol == d.protocol
    ensures d.port == "" && u.WellFormed() ==> w.port == (if u.port == DefaultPort(w.protocol) then "" else u.port)
    ensures d.port != "" && d.WellFormed() ==> w.port == (if d.port == DefaultPort(u.protocol) then "" else d.port)
  {
    SetProtocol(SetHost(u, d), d.protocol)
  }

  /** The constructor: the mapping's pattern and every instance of the mapped services, in order. */
  function NewRedirectProvider(mapping: Mapping, mappedServices: seq<Service>, mode: PickMode := First): (p: RedirectProvider)
    ensures p.urlPattern == mapping.urlPattern && p.mode == mode
    ensures p.instances == Flatten(mappedServices)
    ensures forall k :: 0 <= k < |mappedServices| ==> forall x :: x in mappedServices[k].instances ==> x in p.instances
    ensures forall x :: x in p.instances ==> exists k :: 0 <= k < |mappedServices| && x in mappedServices[k].instances
  {
    RedirectProvider(mapping.urlPattern, Flatten(mappedServices), mode)
  }

  // ---------------------------------------------------------------------
  // Properties

  /**
   * A redirect serialises the URL after the two setters, with the instance
   * URL being the text before the first `|` of the picked instance.
   */
  lemma RedirectKeepsPath(js: Js, p: RedirectProvider, url: string, random: real)
    requires 0.0 <= random < 1.0
    requires p.RedirectURL(js, url, random).Ok? && p.RedirectURL(js, url, random).value.changes
    ensures var u := js.parse(url).value;
            var d := js.parse(Split(p.Pick(random).value, '|')[0]).value;
            p.RedirectURL(js, url, random).value.url == Moved(u, d).Href()
  {
  }

  /**
   * Moving to an instance of the same scheme without a port changes only
   * the host name: `https://www.youtube.com:8443/watch?v=1` moved to
   * `https://piped.example` becomes `https://piped.example:8443/watch?v=1`.
   */
  lemma ExplicitPortKept(u: Url, d: Url)
    requires u.WellFormed() && d.port == "" && u.protocol == d.protocol
    ensures Moved(u, d) == u.(hostname := d.hostname)
  {
  }

  /**
   * A port that is the default of the instance's scheme is dropped:
   * `http://www.youtube.com:443/watch` moved to `https://piped.example`
   * becomes `https://piped.example/watch`.
   */
  lemma DefaultPortDropped(u: Url, d: Url)
    requires d.port == "" && u.port == DefaultPort(d.protocol)
    requires CanSetProtocol(u.(hostname := d.hostname), d.protocol)
    ensures Moved(u, d) == u.(hostname := d.hostname, protocol := d.protocol, port := "")
  {
  }

  /** Whether a redirect provider matches depends only on its mapping's pattern. */
  lemma MatchFollowsMapping(js: Js, mapping: Mapping, services: seq<Service>, services': seq<Service>,
                            mode: PickMode, mode': PickMode, url: string)
    ensures NewRedirectProvider(mapping, services, mode).MatchURL(js, url) ==
            NewRedirectProvider(mapping, services', mode').MatchURL(js, url)
  {
  }

  /** Flattening is a homomorphism: the blocks of two lists of services follow each other. */
  lemma {:induction false} FlattenAppend(a: seq<Service>, b: seq<Service>)
    ensures Flatten(a + b) == Flatten(a) + Flatten(b)
    decreases |a|
  {
    if a == [] {
      assert a + b == b;
    } else {
      var ab := a + b;
      assert ab[0] == a[0] && ab[1..] == a[1..] + b;
      assert Flatten(ab) == a[0].instances + Flatten(a[1..] + b);
      FlattenAppend(a[1..], b);
      assert Flatten(a) == a[0].instances + Flatten(a[1..]);
    }
  }

  /** A single service contributes exactly its own instances. */
  lemma FlattenOne(s: Service)
    ensures Flatten([s]) == s.instances
  {
  }

  /**
   * The instances of service `k` sit, in their own order and once each,
   * right after those of the services before it.
   */
  lemma FlattenBlock(services: seq<Service>, k: nat)
    requires k < |services|
    ensures var off := |Flatten(services[..k])|;
            off + |services[k].instances| <= |Flatten(services)| &&
            Flatten(services)[off..off + |services[k].instances|] == services[k].instances
  {
    assert services == services[..k] + ([services[k]] + services[k + 1..]);
    FlattenAppend(services[..k], [services[k]] + services[k + 1..]);
    FlattenAppend([services[k]], services[k + 1..]);
    FlattenOne(services[k]);
  }

  /** The number of instances is the sum over the services. */
  lemma FlattenLength(a: seq<Service>, b: seq<Service>)
    ensures |Flatten(a + b)| == |Flatten(a)| + |Flatten(b)|
  {
    FlattenAppend(a, b);
  }

  /** In `first` mode the answer does not depend on the random draw. */
  lemma FirstIgnoresRandom(js: Js, p: RedirectProvider, url: string, random: real, random': real)
    requires p.mode == First && 0.0 <= random < 1.0 && 0.0 <= random' < 1.0
    ensures p.RedirectURL(js, url, random) == p.RedirectURL(js, url, random')
  {
  }

  /** A provider built for services without instances never changes a URL it can parse. */
  lemma NoInstancesNoChange(js: Js, mapping: Mapping, url: string, random: real, mode: PickMode)
    requires 0.0 <= random < 1.0 && js.parse(url).Some?
    ensures NewRedirectProvider(mapping, [], mode).RedirectURL(js, url, random) == Ok(Redirected(url, false))
  {
  }

  /** An instance without `|` is used whole. */
  lemma InstanceWithoutExtras(domain: string)
    requires '|' !in domain
    ensures Split(domain, '|')[0] == domain
  {
    SplitPlain(domain, '|');
  }

  /** Extras after `|` are ignored: only the text before the first `|` is parsed. */
  lemma InstanceExtrasIgnored(domain: string, extras: string)
    requires '|' !in domain
    ensures Split(domain + ("|" + extras), '|')[0] == domain
  {
    SplitPrefix(domain, "|" + extras, '|');
  }

  /** The first instance of the first service with instances is what `first` mode picks. */
  lemma FirstPicksFirstService(services: seq<Service>, mapping: Mapping, random: real)
    requires 0.0 <= random < 1.0
    requires services != [] && services[0].instances != []
    ensures NewRedirectProvider(mapping, services).Pick(random) == Some(services[0].instances[0])
  {
  }
}
