/**
 * The parts of the JavaScript platform the URL-cleaning engine stands on.
 *
 * Regular expressions, the WHATWG URL parser, the `URLSearchParams`
 * parser and serialiser and `encodeURIComponent` are not re-implemented:
 * they are fields of a `Js` value that every operation receives, so that
 * nothing is assumed about them beyond the laws stated in `Lawful`.
 * `decodeURIComponent` and the string built-ins are written out, because
 * the engine's behaviour (termination of the decoding loop, the first
 * occurrence removed by `String.prototype.replace`) depends on them.
 */
module Web {

  datatype Option<T> = None | Some(value: T)

  /** An exception thrown by a platform call. */
  datatype Error =
    | TypeError     // `new URL(s)` on a string that does not parse; a method called on `null`
    | UriError      // `decodeURIComponent` on a malformed escape
    | SyntaxError   // `JSON.parse` on text that is not JSON

  /** The value of a JavaScript expression that either returns or throws. */
  datatype Fallible<T> = Ok(value: T) | Throws(error: Error)

  /** One `name=value` entry of a `URLSearchParams` list. */
  type Param = (string, string)

  /**
   * A parsed URL. `credentials` is everything between the protocol and the
   * host (`//` and any `user:password@`). `port` is empty when the URL has
   * none. `query` and `fragment` are `None` when the URL has no `?` or no
   * `#` at all, and `Some("")` when the mark is there with nothing after it.
   */
  datatype Url = Url(protocol: string, credentials: string, hostname: string, port: string,
                     pathname: string, query: Option<string>, fragment: Option<string>)
  {
    /** `url.host`: the host name, and `:port` when there is a port. */
    function Host(): string {
      hostname + (if port == "" then "" else ":" + port)
    }

    /** `url.search`: empty for a missing or an empty query, else `?` and the query. */
    function Search(): string {
      if query.None? || query.value == "" then "" else "?" + query.value
    }

    /** `url.hash`: empty for a missing or an empty fragment, else `#` and the fragment. */
    function Hash(): string {
      if fragment.None? || fragment.value == "" then "" else "#" + fragment.value
    }

    /** `url.toString()` / `url.href`: a present query or fragment keeps its mark even when empty. */
    function Href(): string {
      Origin() + Marked('?', query) + Marked('#', fragment)
    }

    /** The part before the query: protocol, credentials, host and path. */
    function Origin(): string {
      protocol + credentials + Host() + pathname
    }

    /** What the WHATWG parser guarantees about the parts it returns. */
    predicate WellFormed() {
      && '?' !in Origin() && '#' !in Origin()
      && (query.Some? ==> '#' !in query.value)
      && (port == "" || port != DefaultPort(protocol))
    }
  }

  /** A mark and the text after it, or nothing for a missing part. */
  function Marked(mark: char, part: Option<string>): string {
    if part.None? then "" else [mark] + part.value
  }

  /** The default port of a special scheme; empty for a scheme without one. */
  function DefaultPort(protocol: string): string {
    if protocol == "http:" || protocol == "ws:" then "80"
    else if protocol == "https:" || protocol == "wss:" then "443"
    else if protocol == "ftp:" then "21"
    else ""
  }

  /** The special schemes of the WHATWG URL standard. */
  predicate IsSpecial(protocol: string) {
    protocol in ["http:", "https:", "ws:", "wss:", "ftp:", "file:"]
  }

  /**
   * The `host` setter, given a parsed URL's host: the host name is
   * replaced; a port that comes with it replaces the URL's port (and is
   * dropped when it is the default of the URL's scheme); without a port
   * the URL keeps its own.
   */
  function SetHost(u: Url, host: Url): (w: Url)
    ensures w.hostname == host.hostname
    ensures host.port == "" ==> w.port == u.port
    ensures host.port != "" ==> w.port == (if host.port == DefaultPort(u.protocol) then "" else host.port)
    ensures w.WellFormed() <== u.WellFormed() && '?' !in host.hostname && '#' !in host.hostname && '?' !in host.port && '#' !in host.port
    ensures w.(hostname := u.hostname, port := u.port) == u
  {
    if host.port == "" then u.(hostname := host.hostname)
    else u.(hostname := host.hostname, port := if host.port == DefaultPort(u.protocol) then "" else host.port)
  }

  /** Whether the `protocol` setter accepts `protocol` for `u`. */
  predicate CanSetProtocol(u: Url, protocol: string) {
    && IsSpecial(u.protocol) == IsSpecial(protocol)
    && !(protocol == "file:" && ('@' in u.credentials || u.port != ""))
    && !(u.protocol == "file:" && u.hostname == "")
  }

  /**
   * The `protocol` setter: it refuses to switch between special and other
   * schemes and to make a URL with credentials or a port a `file:` one, and
   * it drops a port that is the new scheme's default.
   */
  function SetProtocol(u: Url, protocol: string): (w: Url)
    ensures !CanSetProtocol(u, protocol) ==> w == u
    ensures CanSetProtocol(u, protocol) ==> w.protocol == protocol
    ensures CanSetProtocol(u, protocol) ==> w.port == (if u.port == DefaultPort(protocol) then "" else u.port)
    ensures w.port == "" || w.port != DefaultPort(w.protocol) <== u.port == "" || u.port != DefaultPort(u.protocol)
    ensures w.(protocol := u.protocol, port := u.port) == u
  {
    if !CanSetProtocol(u, protocol) then u
    else u.(protocol := protocol, port := if u.port == DefaultPort(protocol) then "" else u.port)
  }

  /**
   * The platform primitives. Every regular expression is compiled with the
   * `i` flag, so `test` and `capture1` are case-insensitive. Patterns are
   * taken to compile: the `SyntaxError` that `new RegExp` throws on an
   * invalid pattern is not modelled.
   */
  datatype Js = Js(
    test: (string, string) -> bool,             // new RegExp(p, 'i').test(s)
    capture1: (string, string) -> Option<string>, // new RegExp(p, 'i').exec(s)[1]; None: group undefined
    replaceAll: (string, string) -> string,     // s.replace(new RegExp(p, 'gi'), '')
    parse: string -> Option<Url>,               // new URL(s); None: it throws
    parseParams: string -> seq<Param>,          // new URLSearchParams(s)
    serializeParams: seq<Param> -> string,      // URLSearchParams.prototype.toString
    encodeComponent: string -> string           // encodeURIComponent
  )

  /** Laws the real primitives obey, required only where a proof needs them. */
  ghost predicate Lawful(js: Js) {
    // A global replacement with no match leaves the text alone.
    && (forall p, s :: !js.test(p, s) ==> js.replaceAll(p, s) == s)
    // Only the empty list serialises to the empty string: even `[("", "")]` gives "=".
    && (forall ps :: js.serializeParams(ps) == "" <==> ps == [])
    // Parsed URLs are well formed.
    && (forall s :: js.parse(s).Some? ==> js.parse(s).value.WellFormed())
  }

  // ---------------------------------------------------------------------
  // String built-ins

  /** `s.startsWith(prefix)`. */
  predicate StartsWith(s: string, prefix: string) {
    |prefix| <= |s| && s[..|prefix|] == prefix
  }

  /** Whether `pat` occurs in `s` at position `i`. */
  predicate OccursAt(s: string, pat: string, i: nat) {
    i + |pat| <= |s| && s[i..i + |pat|] == pat
  }

  /** `s.indexOf(pat, from)`: the first occurrence at or after `from`. */
  function IndexOf(s: string, pat: string, from: nat := 0): (r: Option<nat>)
    ensures r.Some? ==> from <= r.value && OccursAt(s, pat, r.value)
    ensures r.Some? ==> forall j :: from <= j < r.value ==> !OccursAt(s, pat, j)
    ensures r.None? ==> forall j :: from <= j ==> !OccursAt(s, pat, j)
    decreases |s| - from
  {
    if from + |pat| > |s| then None
    else if s[from..from + |pat|] == pat then Some(from)
    else IndexOf(s, pat, from + 1)
  }

  /** `s.replace(pat, replacement)` with a literal pattern: only the first occurrence is replaced. */
  function ReplaceFirst(s: string, pat: string, replacement: string): string {
    match IndexOf(s, pat)
    case None => s
    case Some(i) => s[..i] + replacement + s[i + |pat|..]
  }

  /** `parts.join(sep)`. */
  function Join(parts: seq<string>, sep: string): string
    decreases |parts|
  {
    if parts == [] then ""
    else if |parts| == 1 then parts[0]
    else parts[0] + sep + Join(parts[1..], sep)
  }

  /** `s.split(sep)` with a one-character separator; never empty (`"".split(",")` is `[""]`). */
  function Split(s: string, sep: char): (r: seq<string>)
    ensures |r| >= 1
    decreases |s|
  {
    if s == [] then [""]
    else
      var rest := Split(s[1..], sep);
      if s[0] == sep then [""] + rest else [[s[0]] + rest[0]] + rest[1..]
  }

  /** The text after a leading `?` or `#`, as `URLSearchParams` reads `url.search`. */
  function DropMark(s: string): string {
    if s == [] then s else s[1..]
  }

  // ---------------------------------------------------------------------
  // decodeURIComponent

  predicate IsHexDigit(c: char) {
    '0' <= c <= '9' || 'a' <= c <= 'f' || 'A' <= c <= 'F'
  }

  function HexValue(c: char): (v: nat)
    requires IsHexDigit(c)
    ensures v < 16
  {
    if '0' <= c <= '9' then (c - '0') as nat
    else if 'a' <= c <= 'f' then (c - 'a') as nat + 10
    else (c - 'A') as nat + 10
  }

  /**
   * `decodeURIComponent(s)`, one pass: every `%XY` escape becomes the
   * character with code 0xXY; a `%` without two hex digits after it is a
   * URIError (`None`). Each escape shortens the text by two, so a pass that
   * changes the text makes it strictly shorter.
   */
  function DecodeURIComponent(s: string): (r: Option<string>)
    ensures r.Some? ==> |r.value| <= |s|
    ensures r.Some? && r.value != s ==> |r.value| < |s|
    decreases |s|
  {
    if s == [] then Some([])
    else if s[0] == '%' then
      if 3 <= |s| && IsHexDigit(s[1]) && IsHexDigit(s[2]) then
        match DecodeURIComponent(s[3..])
        case None => None
        case Some(t) => Some([(HexValue(s[1]) * 16 + HexValue(s[2])) as char] + t)
      else None
    else
      match DecodeURIComponent(s[1..])
      case None => None
      case Some(t) => Some([s[0]] + t)
  }

  /** Text without a `%` is its own decoding. */
  lemma {:induction false} DecodePlain(s: string)
    requires '%' !in s
    ensures DecodeURIComponent(s) == Some(s)
    decreases |s|
  {
    if s != [] {
      assert '%' !in s[1..];
      DecodePlain(s[1..]);
      assert [s[0]] + s[1..] == s;
    }
  }

  /** Splitting a join recovers the parts, provided no part holds the separator. */
  lemma {:induction false} SplitJoin(parts: seq<string>, sep: char)
    requires |parts| >= 1
    requires forall k :: 0 <= k < |parts| ==> sep !in parts[k]
    ensures Split(Join(parts, [sep]), sep) == parts
    decreases |parts|
  {
    if |parts| == 1 {
      SplitPlain(parts[0], sep);
    } else {
      SplitJoin(parts[1..], sep);
      assert Join(parts, [sep]) == parts[0] + ([sep] + Join(parts[1..], [sep]));
      SplitPrefix(parts[0], [sep] + Join(parts[1..], [sep]), sep);
      assert ([sep] + Join(parts[1..], [sep]))[1..] == Join(parts[1..], [sep]);
      assert [parts[0]] + parts[1..] == parts;
    }
  }

  lemma {:induction false} SplitPlain(s: string, sep: char)
    requires sep !in s
    ensures Split(s, sep) == [s]
    decreases |s|
  {
    if s != [] {
      assert sep !in s[1..];
      SplitPlain(s[1..], sep);
      assert [s[0]] + s[1..] == s;
    }
  }

  /** Splitting `x + [sep] + y` with `sep` not in `x` gives `x` followed by the split of `y`. */
  lemma {:induction false} SplitPrefix(x: string, rest: string, sep: char)
    requires sep !in x
    requires |rest| >= 1 && rest[0] == sep
    ensures Split(x + rest, sep) == [x] + Split(rest[1..], sep)
    decreases |x|
  {
    if x == [] {
      assert x + rest == rest;
    } else {
      assert sep !in x[1..];
      SplitPrefix(x[1..], rest, sep);
      assert (x + rest)[1..] == x[1..] + rest;
      assert [x[0]] + x[1..] == x;
    }
  }
}
