/** Parsing of wss:// URLs, against the set of texts that spell a given host, port and target. */
module WsUrl {
  import opened Prelude

  datatype WsError =
    | InvalidUrl | ResolveFailed | ConnectFailed | SslHandshakeFailed | WsHandshakeFailed | ReadFailed | WriteFailed

  datatype Url = Url(host: string, port: string, target: string)

  const WSS_PREFIX := "wss://"
  const DEFAULT_PORT := "443"
  const DEFAULT_TARGET := "/"

  /** find: the first position of c, or the length when there is none. */
  function IndexOf(s: string, c: char): (k: nat)
    ensures k <= |s|
    ensures k < |s| ==> s[k] == c
    ensures forall i :: 0 <= i < k ==> s[i] != c
  {
    if s == "" || s[0] == c then 0 else 1 + IndexOf(s[1..], c)
  }

  /** The host and port part, behind the prefix and before the target. */
  function ParseHostPort(hostPort: string, target: string): Result<Url, WsError> {
    if hostPort == "" then Err(InvalidUrl)
    else
      var colon := IndexOf(hostPort, ':');
      var host := hostPort[..colon];
      var port := if colon == |hostPort| then DEFAULT_PORT else hostPort[colon + 1..];
      if host == "" || port == "" then Err(InvalidUrl)
      else Ok(Url(host, port, target))
  }

  /** Everything behind the prefix. */
  function ParseRest(rest: string): Result<Url, WsError> {
    var slash := IndexOf(rest, '/');
    ParseHostPort(rest[..slash], if slash == |rest| then DEFAULT_TARGET else rest[slash..])
  }

  function ParseWsUrl(url: string): Result<Url, WsError> {
    if !(WSS_PREFIX <= url) then Err(InvalidUrl) else ParseRest(url[|WSS_PREFIX|..])
  }

  predicate Lacks(s: string, c: char) { forall i :: 0 <= i < |s| ==> s[i] != c }

  predicate ValidUrl(u: Url) {
    && u.host != "" && Lacks(u.host, ':') && Lacks(u.host, '/')
    && u.port != "" && Lacks(u.port, '/')
    && u.target != "" && u.target[0] == '/'
  }

  /** The port with its colon, or nothing. */
  predicate SpellsPort(text: string, port: string) { text == ":" + port || (text == "" && port == DEFAULT_PORT) }

  /** The target, or nothing. */
  predicate SpellsTarget(text: string, target: string) {
    text == target || (text == "" && target == DEFAULT_TARGET)
  }

  function Spelling(u: Url, portText: string, targetText: string): string {
    WSS_PREFIX + (u.host + portText + targetText)
  }

  ghost predicate Spells(url: string, u: Url) {
    exists portText, targetText ::
      SpellsPort(portText, u.port) && SpellsTarget(targetText, u.target) && url == Spelling(u, portText, targetText)
  }

  function Render(u: Url): string { Spelling(u, ":" + u.port, u.target) }

  lemma IndexIs(s: string, c: char, k: nat)
    requires k <= |s| && (forall i :: 0 <= i < k ==> s[i] != c) && (k < |s| ==> s[k] == c)
    ensures IndexOf(s, c) == k
  {
  }

  lemma HostPortParses(u: Url, portText: string)
    requires ValidUrl(u) && SpellsPort(portText, u.port)
    ensures ParseHostPort(u.host + portText, u.target) == Ok(u)
    ensures Lacks(u.host + portText, '/')
  {
    var hostPort := u.host + portText;
    IndexIs(hostPort, ':', |u.host|);
    assert hostPort[..|u.host|] == u.host;
    if portText != "" {
      assert hostPort[|u.host| + 1..] == u.port;
    }
  }

  lemma SpellingParses(u: Url, portText: string, targetText: string)
    requires ValidUrl(u) && SpellsPort(portText, u.port) && SpellsTarget(targetText, u.target)
    ensures ParseWsUrl(Spelling(u, portText, targetText)) == Ok(u)
  {
    var hostPort := u.host + portText;
    var rest := hostPort + targetText;
    var url := Spelling(u, portText, targetText);
    assert url[|WSS_PREFIX|..] == rest && WSS_PREFIX <= url;
    HostPortParses(u, portText);
    IndexIs(rest, '/', |hostPort|);
    assert rest[..|hostPort|] == hostPort && rest[|hostPort|..] == targetText;
  }

  lemma HostPortSpells(hostPort: string, target: string) returns (portText: string)
    requires ParseHostPort(hostPort, target).Ok?
    ensures var u := ParseHostPort(hostPort, target).value;
            && SpellsPort(portText, u.port) && hostPort == u.host + portText && u.target == target
            && u.host != "" && Lacks(u.host, ':') && u.port != ""
            && (Lacks(hostPort, '/') ==> Lacks(u.host, '/') && Lacks(u.port, '/'))
  {
    var colon := IndexOf(hostPort, ':');
    portText := hostPort[colon..];
    assert hostPort == hostPort[..colon] + portText;
    if colon < |hostPort| {
      assert portText == ":" + hostPort[colon + 1..];
    }
  }

  lemma RestSpells(rest: string) returns (portText: string, targetText: string)
    requires ParseRest(rest).Ok?
    ensures var u := ParseRest(rest).value;
            && ValidUrl(u) && SpellsPort(portText, u.port) && SpellsTarget(targetText, u.target)
            && rest == u.host + portText + targetText
  {
    var slash := IndexOf(rest, '/');
    targetText := rest[slash..];
    portText := HostPortSpells(rest[..slash], ParseRest(rest).value.target);
    assert rest == rest[..slash] + targetText;
  }

  lemma ParsedSpells(url: string)
    requires ParseWsUrl(url).Ok?
    ensures ValidUrl(ParseWsUrl(url).value) && Spells(url, ParseWsUrl(url).value)
  {
    var rest := url[|WSS_PREFIX|..];
    var portText, targetText := RestSpells(rest);
    assert url == WSS_PREFIX + rest;
    assert url == Spelling(ParseWsUrl(url).value, portText, targetText);
  }

  /** The parser accepts exactly the spellings of a valid triple, and yields that triple. */
  lemma ParsesIffSpells(url: string, u: Url)
    ensures ParseWsUrl(url) == Ok(u) <==> ValidUrl(u) && Spells(url, u)
  {
    if ParseWsUrl(url) == Ok(u) {
      ParsedSpells(url);
    }
    if ValidUrl(u) && Spells(url, u) {
      var portText, targetText :|
        SpellsPort(portText, u.port) && SpellsTarget(targetText, u.target) && url == Spelling(u, portText, targetText);
      SpellingParses(u, portText, targetText);
    }
  }

  /** Parsing inverts rendering, and re-rendering any accepted URL does not change its meaning. */
  lemma RenderRoundTrip(u: Url, url: string)
    ensures ValidUrl(u) ==> ParseWsUrl(Render(u)) == Ok(u)
    ensures ParseWsUrl(url) == Ok(u) ==> ParseWsUrl(Render(u)) == Ok(u)
  {
    ParsesIffSpells(url, u);
    if ValidUrl(u) {
      SpellingParses(u, ":" + u.port, u.target);
    }
  }

  /**
   * Two URLs are accepted and parse alike if and only if one valid triple is spelled by
   * both: they differ at most by an explicit port 443 and an explicit lone slash.
   */
  lemma ParseAlikeIff(a: string, b: string)
    ensures (exists u :: ParseWsUrl(a) == Ok(u) == ParseWsUrl(b)) <==>
            (exists u :: ValidUrl(u) && Spells(a, u) && Spells(b, u))
  {
    forall u
      ensures ParseWsUrl(a) == Ok(u) == ParseWsUrl(b) <==> ValidUrl(u) && Spells(a, u) && Spells(b, u)
    {
      ParsesIffSpells(a, u);
      ParsesIffSpells(b, u);
    }
  }

  /** A URL is written with this scheme, and no other will do. */
  lemma UrlsAsWritten(u: Url, url: string)
    requires ValidUrl(u)
    ensures ParseWsUrl("wss://" + (u.host + (":" + u.port) + u.target)) == Ok(u)
    ensures !("wss://" <= url) ==> ParseWsUrl(url) == Err(InvalidUrl)
  {
    SpellingParses(u, ":" + u.port, u.target);
  }

  /** What is left out is port 443 and target "/". */
  lemma DefaultsAsWritten(u: Url)
    requires ValidUrl(u)
    ensures ParseWsUrl("wss://" + u.host) == Ok(Url(u.host, "443", "/"))
    ensures ParseWsUrl("wss://" + (u.host + u.target)) == Ok(Url(u.host, "443", u.target))
  {
    DefaultPortParses(Url(u.host, "443", "/"), "");
    DefaultPortParses(Url(u.host, "443", u.target), u.target);
    assert u.host + "" == u.host;
  }

  lemma DefaultPortParses(u: Url, targetText: string)
    requires ValidUrl(u) && u.port == DEFAULT_PORT && SpellsTarget(targetText, u.target)
    ensures ParseWsUrl("wss://" + (u.host + targetText)) == Ok(u)
  {
    SpellingParses(u, "", targetText);
    assert u.host + "" == u.host;
  }
}
