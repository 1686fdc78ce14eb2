/** The helpers of lib/tools.ts that the cleaning engine uses. */
module Tools {
  import opened Web

  /** `isEmpty(obj)`: an object given by its own properties has none. */
  function IsEmpty<V>(obj: map<string, V>): (r: bool)
    ensures r <==> obj.Keys == {}
  {
    |obj| == 0
  }

  // ---------------------------------------------------------------------
  // decodeURL

  /** `isEncodedURI(uri)`: whether one more decoding pass changes `uri` (`None`: it throws). */
  function IsEncodedURI(uri: string): (r: Option<bool>)
    ensures r.Some? <==> DecodeURIComponent(uri).Some?
    ensures r == Some(false) <==> DecodeURIComponent(uri) == Some(uri)
  {
    match DecodeURIComponent(uri)
    case None => None
    case Some(d) => Some(uri != d)
  }

  /**
   * Decoding repeated until a pass changes nothing. Terminates because a
   * pass that changes the text shortens it.
   */
  function FullyDecoded(s: string): (r: Fallible<string>)
    ensures r.Ok? ==> IsEncodedURI(r.value) == Some(false)
    ensures r.Throws? ==> r.error == UriError
    decreases |s|
  {
    match DecodeURIComponent(s)
    case None => Throws(UriError)
    case Some(d) => if d == s then Ok(s) else FullyDecoded(d)
  }

  /** The value `decodeURL(url)` returns or throws. */
  function DecodedURL(url: string): (r: Fallible<string>)
    ensures r.Ok? <==> FullyDecoded(url).Ok?
    ensures r.Ok? ==> StartsWith(r.value, "http")
    ensures r.Ok? ==> var core := FullyDecoded(url).value;
                      if StartsWith(core, "http") then r.value == core else r.value == "http://" + core
  {
    match FullyDecoded(url)
    case Throws(e) => Throws(e)
    case Ok(core) => Ok(if StartsWith(core, "http") then core else "http://" + core)
  }

  /**
   * `decodeURL(url)`: decode once, keep decoding while `isEncodedURI`, then
   * add `http://` unless the text already starts with `http`.
   */
  method DecodeURL(url: string) returns (r: Fallible<string>)
    ensures r == DecodedURL(url)
  {
    var first := DecodeURIComponent(url);
    if first.None? {
      return Throws(UriError);
    }
    var rtn := first.value;
    while true
      invariant FullyDecoded(rtn) == FullyDecoded(url)
      decreases |rtn|
    {
      var encoded := IsEncodedURI(rtn);
      if encoded.None? {
        return Throws(UriError);
      }
      if !encoded.value {
        break;
      }
      rtn := DecodeURIComponent(rtn).value;
    }
    if !StartsWith(rtn, "http") {
      rtn := "http://" + rtn;
    }
    return Ok(rtn);
  }

  /** Text without escapes is only given the scheme it lacks. */
  lemma DecodePlainURL(url: string)
    requires '%' !in url
    ensures DecodedURL(url) == Ok(if StartsWith(url, "http") then url else "http://" + url)
  {
    DecodePlain(url);
  }

  /**
   * A redirect target whose `:` and `/` were percent-encoded twice decodes
   * in full, whatever the (escape-free) host.
   */
  lemma DecodeTwiceEncoded(host: string)
    requires '%' !in host
    ensures DecodedURL("http" + ("%25" + ("3A" + ("%25" + ("2F" + ("%25" + ("2F" + host)))))))
         == Ok("http" + (":" + ("/" + ("/" + host))))
  {
    var twice := "http" + ("%25" + ("3A" + ("%25" + ("2F" + ("%25" + ("2F" + host))))));
    var once := "http" + ("%" + ("3A" + ("%" + ("2F" + ("%" + ("2F" + host))))));
    var plain := "http" + (":" + ("/" + ("/" + host)));
    DecodeFirstPass(host);
    DecodeSecondPass(host);
    assert once == "http" + ("%3A" + ("%2F" + ("%2F" + host)));
    assert '%' !in plain;
    DecodePlain(plain);
    assert |once| + 6 == |twice| && |plain| + 6 == |once|;
    assert FullyDecoded(plain) == Ok(plain);
    assert FullyDecoded(once) == Ok(plain);
    assert plain[..4] == "http";
  }

  lemma DecodeFirstPass(host: string)
    requires '%' !in host
    ensures DecodeURIComponent("http" + ("%25" + ("3A" + ("%25" + ("2F" + ("%25" + ("2F" + host)))))))
         == Some("http" + ("%" + ("3A" + ("%" + ("2F" + ("%" + ("2F" + host)))))))
  {
    var a0 := "2F" + host;
    DecodePlain(a0);
    DecodePercent(a0, a0);
    DecodeStep("2F", "%25" + a0, "%" + a0);
    DecodePercent("2F" + ("%25" + a0), "2F" + ("%" + a0));
    DecodeStep("3A", "%25" + ("2F" + ("%25" + a0)), "%" + ("2F" + ("%" + a0)));
    DecodePercent("3A" + ("%25" + ("2F" + ("%25" + a0))), "3A" + ("%" + ("2F" + ("%" + a0))));
    DecodeStep("http", "%25" + ("3A" + ("%25" + ("2F" + ("%25" + a0)))), "%" + ("3A" + ("%" + ("2F" + ("%" + a0)))));
  }

  lemma DecodeSecondPass(host: string)
    requires '%' !in host
    ensures DecodeURIComponent("http" + ("%3A" + ("%2F" + ("%2F" + host))))
         == Some("http" + (":" + ("/" + ("/" + host))))
  {
    DecodePlain(host);
    DecodeSlash(host, host);
    DecodeSlash("%2F" + host, "/" + host);
    DecodeColon("%2F" + ("%2F" + host), "/" + ("/" + host));
    DecodeStep("http", "%3A" + ("%2F" + ("%2F" + host)), ":" + ("/" + ("/" + host)));
  }

  lemma DecodePercent(rest: string, decoded: string)
    requires DecodeURIComponent(rest) == Some(decoded)
    ensures DecodeURIComponent("%25" + rest) == Some("%" + decoded)
  {
    assert HexValue('2') == 2 && HexValue('5') == 5;
    DecodeNamedEscape("%25", '%', rest, decoded);
  }

  lemma DecodeSlash(rest: string, decoded: string)
    requires DecodeURIComponent(rest) == Some(decoded)
    ensures DecodeURIComponent("%2F" + rest) == Some("/" + decoded)
  {
    assert HexValue('2') == 2 && HexValue('F') == 15;
    DecodeNamedEscape("%2F", '/', rest, decoded);
  }

  lemma DecodeColon(rest: string, decoded: string)
    requires DecodeURIComponent(rest) == Some(decoded)
    ensures DecodeURIComponent("%3A" + rest) == Some(":" + decoded)
  {
    assert HexValue('3') == 3 && HexValue('A') == 10;
    DecodeNamedEscape("%3A", ':', rest, decoded);
  }

  /** One three-character escape whose decoded character is `c`. */
  lemma DecodeNamedEscape(esc: string, c: char, rest: string, decoded: string)
    requires |esc| == 3 && esc[0] == '%' && IsHexDigit(esc[1]) && IsHexDigit(esc[2])
    requires HexValue(esc[1]) * 16 + HexValue(esc[2]) == c as int
    requires DecodeURIComponent(rest) == Some(decoded)
    ensures DecodeURIComponent(esc + rest) == Some([c] + decoded)
  {
    var s := esc + rest;
    assert s[0] == '%' && s[1] == esc[1] && s[2] == esc[2] && s[3..] == rest;
  }

  /** Decoding distributes over a `%`-free prefix. */
  lemma {:induction false} DecodeStep(plain: string, rest: string, decoded: string)
    requires '%' !in plain
    requires DecodeURIComponent(rest) == Some(decoded)
    ensures DecodeURIComponent(plain + rest) == Some(plain + decoded)
    decreases |plain|
  {
    if plain == [] {
      assert plain + rest == rest;
      assert plain + decoded == decoded;
    } else {
      var c, tail := plain[0], plain[1..];
      assert c in plain;
      ConsSplit(plain, rest, decoded);
      DecodeStep(tail, rest, decoded);
      DecodeCons(c, tail + rest, tail + decoded);
    }
  }

  lemma ConsSplit(plain: string, rest: string, decoded: string)
    requires plain != []
    ensures [plain[0]] + (plain[1..] + rest) == plain + rest
    ensures [plain[0]] + (plain[1..] + decoded) == plain + decoded
    ensures ('%' !in plain) ==> '%' !in plain[1..]
  {
    assert plain == [plain[0]] + plain[1..];
  }

  /** A character other than `%` is copied. */
  lemma DecodeCons(c: char, rest: string, decoded: string)
    requires c != '%'
    requires DecodeURIComponent(rest) == Some(decoded)
    ensures DecodeURIComponent([c] + rest) == Some([c] + decoded)
  {
    assert ([c] + rest)[1..] == rest;
  }


  // ---------------------------------------------------------------------
  // urlSearchParamsToString

  /** One serialised entry: `key=encodeURIComponent(value)`, or the bare key when the value is empty. */
  function EntryString(js: Js, p: Param): string {
    if p.1 != "" then p.0 + "=" + js.encodeComponent(p.1) else p.0
  }

  function EntryStrings(js: Js, params: seq<Param>): (r: seq<string>)
    ensures |r| == |params|
    ensures forall k :: 0 <= k < |params| ==> r[k] == EntryString(js, params[k])
  {
    seq(|params|, k requires 0 <= k < |params| => EntryString(js, params[k]))
  }

  /** The serialisation `urlSearchParamsToString` produces. */
  function SearchParamsString(js: Js, params: seq<Param>): string {
    Join(EntryStrings(js, params), "&")
  }

  /** `urlSearchParamsToString(searchParams)`: push one string per entry, then join with `&`. */
  method UrlSearchParamsToString(js: Js, params: seq<Param>) returns (s: string)
    ensures s == SearchParamsString(js, params)
    ensures params == [] ==> s == ""
  {
    var rtn: seq<string> := [];
    for i := 0 to |params|
      invariant rtn == EntryStrings(js, params[..i])
    {
      var value := params[i].1;
      var key := params[i].0;
      if value != "" {
        rtn := rtn + [key + "=" + js.encodeComponent(value)];
      } else {
        rtn := rtn + [key];
      }
    }
    assert params[..|params|] == params;
    s := Join(rtn, "&");
  }

  /**
   * Splitting the serialisation at `&` gives back one entry per parameter,
   * in order, as long as no key and no encoded value contains `&` (keys
   * are written verbatim, so a key holding `&` breaks this).
   */
  lemma SearchParamsStringSplits(js: Js, params: seq<Param>)
    requires params != []
    requires forall k :: 0 <= k < |params| ==> '&' !in params[k].0 && '&' !in js.encodeComponent(params[k].1)
    ensures Split(SearchParamsString(js, params), '&') == EntryStrings(js, params)
  {
    var parts := EntryStrings(js, params);
    forall k | 0 <= k < |parts| ensures '&' !in parts[k] {
      assert parts[k] == EntryString(js, params[k]);
    }
    SplitJoin(parts, '&');
  }

  // ---------------------------------------------------------------------
  // urlWithoutParamsAndHash

  /** The text left after deleting the first occurrence of `search` and then of `hash` from `href`. */
  function WithoutSearchAndHash(href: string, search: string, hash: string): string {
    var a := if search != "" then ReplaceFirst(href, search, "") else href;
    if hash != "" then ReplaceFirst(a, hash, "") else a
  }

  /** `urlWithoutParamsAndHash(url)`: what it returns or throws. */
  function UrlWithoutParamsAndHashSpec(js: Js, url: Url): Fallible<Url> {
    match js.parse(WithoutSearchAndHash(url.Href(), url.Search(), url.Hash()))
    case None => Throws(TypeError)
    case Some(u) => Ok(u)
  }

  method UrlWithoutParamsAndHash(js: Js, url: Url) returns (r: Fallible<Url>)
    ensures r == UrlWithoutParamsAndHashSpec(js, url)
  {
    var newURL := url.Href();
    if url.Search() != "" {
      newURL := ReplaceFirst(newURL, url.Search(), "");
    }
    if url.Hash() != "" {
      newURL := ReplaceFirst(newURL, url.Hash(), "");
    }
    var parsed := js.parse(newURL);
    if parsed.None? {
      return Throws(TypeError);
    }
    return Ok(parsed.value);
  }

  /**
   * For a well-formed URL the two deletions remove exactly a non-empty query
   * and a non-empty fragment: the first `?` of the serialisation starts the
   * query and the first `#` starts the fragment. A `?` or `#` with nothing
   * after it is not part of `search` or `hash`, so it stays.
   */
  lemma WithoutSearchAndHashIsOrigin(url: Url)
    requires url.WellFormed()
    ensures WithoutSearchAndHash(url.Href(), url.Search(), url.Hash()) ==
            url.Origin() + (if url.query == Some("") then "?" else "") + (if url.fragment == Some("") then "#" else "")
  {
    SearchRemoved(url);
    HashRemoved(url);
  }

  /** The first deletion: a non-empty query goes, a bare `?` stays. */
  lemma SearchRemoved(url: Url)
    requires url.WellFormed()
    ensures var s := url.Search();
            (if s != "" then ReplaceFirst(url.Href(), s, "") else url.Href()) ==
            url.Origin() + (if url.query == Some("") then "?" else "") + Marked('#', url.fragment)
  {
    var o, s := url.Origin(), url.Search();
    var qm, fm := Marked('?', url.query), Marked('#', url.fragment);
    assert url.Href() == o + qm + fm;
    if s != "" {
      assert qm == s;
      RemoveFirstAfterMark(o, s, fm, '?');
    }
  }

  /** The second deletion: a non-empty fragment goes, a bare `#` stays. */
  lemma HashRemoved(url: Url)
    requires url.WellFormed()
    ensures var a := url.Origin() + (if url.query == Some("") then "?" else "") + Marked('#', url.fragment);
            var h := url.Hash();
            (if h != "" then ReplaceFirst(a, h, "") else a) ==
            url.Origin() + (if url.query == Some("") then "?" else "") + (if url.fragment == Some("") then "#" else "")
  {
    var o, h := url.Origin(), url.Hash();
    var q' := if url.query == Some("") then "?" else "";
    if h != "" {
      assert Marked('#', url.fragment) == h;
      assert '#' !in o + q';
      RemoveFirstAfterMark(o + q', h, "", '#');
      assert o + q' + h + "" == o + q' + h;
    }
  }

  /** Deleting the first occurrence of `s` from `o + s + t`, where `s` starts with a mark absent from `o`. */
  lemma RemoveFirstAfterMark(o: string, s: string, t: string, mark: char)
    requires s != [] && s[0] == mark && mark !in o
    ensures ReplaceFirst(o + s + t, s, "") == o + t
  {
    var text := o + s + t;
    assert OccursAt(text, s, |o|) by {
      assert text[|o|..|o| + |s|] == s;
    }
    forall j | 0 <= j < |o| ensures !OccursAt(text, s, j) {
      assert text[j] == o[j] != mark;
      if j + |s| <= |text| {
        assert text[j..j + |s|][0] == text[j];
      }
    }
    FirstOccurrence(text, s, |o|);
    assert text[..|o|] == o;
    assert text[|o| + |s|..] == t;
  }

  /** An occurrence with none before it is the one `indexOf` finds. */
  lemma FirstOccurrence(text: string, pat: string, i: nat)
    requires OccursAt(text, pat, i)
    requires forall j :: 0 <= j < i ==> !OccursAt(text, pat, j)
    ensures IndexOf(text, pat) == Some(i)
  {
  }
}
