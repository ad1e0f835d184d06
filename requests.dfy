/** Request construction of the monitor: the browser-like header sets for
    the storefront page and for the fulfillment API, and the query of the
    availability lookup. A request is recorded with its query as a map; the
    percent-encoding that turns it into text is left to the HTTP layer. */
module Requests {
  import Text

  const UserAgentName := "User-Agent"
  const ConnectionName := "Connection"
  const AcceptLanguageName := "Accept-Language"
  const AcceptEncodingName := "Accept-Encoding"
  const AcceptName := "Accept"
  const RefererName := "Referer"
  const OriginName := "Origin"
  const CookieName := "cookie"

  const DesktopUserAgent := "Mozilla/5.0 (Windows NT 10.0; Win64; x64) "
    + "AppleWebKit/537.36 (KHTML, like Gecko) "
    + "Chrome/140.0.0.0 Safari/537.36"
  const KeepAlive := "keep-alive"
  const Languages := "en-US,en;q=0.9"
  /** Only encodings the HTTP client can decompress: no brotli. */
  const Encodings := "gzip, deflate"
  const JsonAccept := "application/json, text/plain, */*"
  const HtmlAccept := "text/html,application/xhtml+xml,application/xml;q=0.9,*/*;q=0.8"
  const StorefrontReferer := "https://www.apple.com/shop/buy-iphone"
  const StorefrontOrigin := "https://www.apple.com"
  /** The fixed session cookie sent with every API call. Its value is a
      long literal of session and tracking identifiers that nothing in the
      monitor reads; it stands here as an opaque constant. */
  const SeedCookie := "dssid2=<fixed session>; geo=US"

  /** The header names every request carries, whatever its role. */
  const CommonNames: set<string> := {UserAgentName, ConnectionName, AcceptLanguageName, AcceptEncodingName}

  /** Which of the two header sets a request carries. */
  datatype Role = Page | Api

  /** An HTTP GET as the monitor issues it: the URL, the query, and the
      role whose header set `BrowserHeaders(role == Api)` it is sent with. */
  datatype Request = Request(url: string, query: map<string, string>, role: Role)

  /** The header set of each role, as one map. */
  function BrowserHeaders(isApi: bool): map<string, string>
  {
    var common := map[UserAgentName := DesktopUserAgent, ConnectionName := KeepAlive,
                      AcceptLanguageName := Languages, AcceptEncodingName := Encodings];
    if isApi then
      common[AcceptName := JsonAccept][RefererName := StorefrontReferer][OriginName := StorefrontOrigin][CookieName := SeedCookie]
    else
      common[AcceptName := HtmlAccept]
  }

  /** `buildUSBrowserHeaders(isApi)`: fills a fresh header map one entry at a
      time. */
  method BuildBrowserHeaders(isApi: bool) returns (h: map<string, string>)
    ensures h == BrowserHeaders(isApi)
  {
    h := map[];
    h := h[UserAgentName := DesktopUserAgent];
    h := h[ConnectionName := KeepAlive];
    h := h[AcceptLanguageName := Languages];
    h := h[AcceptEncodingName := Encodings];
    if isApi {
      h := h[AcceptName := JsonAccept];
      h := h[RefererName := StorefrontReferer];
      h := h[OriginName := StorefrontOrigin];
      h := h[CookieName := SeedCookie];
    } else {
      h := h[AcceptName := HtmlAccept];
    }
  }

  /** The eight header names are pairwise different: all but the Accept
      family differ in their first letter, and within that family the
      length or the eighth letter tells them apart. */
  lemma NamesDistinct()
    ensures |{UserAgentName, ConnectionName, AcceptLanguageName, AcceptEncodingName,
              AcceptName, RefererName, OriginName, CookieName}| == 8
  {
    assert UserAgentName[0] == 'U' && ConnectionName[0] == 'C' && RefererName[0] == 'R'
        && OriginName[0] == 'O' && CookieName[0] == 'c';
    assert AcceptName[0] == 'A' && AcceptLanguageName[0] == 'A' && AcceptEncodingName[0] == 'A';
    assert |AcceptName| == 6 && |AcceptLanguageName| == 15 && |AcceptEncodingName| == 15;
    assert AcceptLanguageName[7] == 'L' && AcceptEncodingName[7] == 'E';
  }

  /** The page role: the desktop user agent, keep-alive, English languages,
      gzip/deflate only and an HTML Accept, and nothing else; in particular
      no Referer, Origin or cookie. */
  lemma PageHeaders()
    ensures var h := BrowserHeaders(false);
      && h.Keys == CommonNames + {AcceptName}
      && h[UserAgentName] == DesktopUserAgent && h[ConnectionName] == KeepAlive
      && h[AcceptLanguageName] == Languages && h[AcceptEncodingName] == Encodings
      && h[AcceptName] == HtmlAccept
      && RefererName !in h && OriginName !in h && CookieName !in h
  {
    NamesDistinct();
  }

  /** The API role: the same four common headers, a JSON Accept, the
      storefront Referer and Origin and the seed cookie. */
  lemma ApiHeaders()
    ensures var h := BrowserHeaders(true);
      && h.Keys == CommonNames + {AcceptName, RefererName, OriginName, CookieName}
      && h[UserAgentName] == DesktopUserAgent && h[ConnectionName] == KeepAlive
      && h[AcceptLanguageName] == Languages && h[AcceptEncodingName] == Encodings
      && h[AcceptName] == JsonAccept && h[RefererName] == StorefrontReferer
      && h[OriginName] == StorefrontOrigin && h[CookieName] == SeedCookie
  {
    NamesDistinct();
  }

  /** "br" occurs nowhere in the advertised encodings. */
  lemma NoBrotli()
    ensures !Text.Contains(Encodings, "br")
  {
    assert 'b' !in Encodings;
    Text.ContainsNeedsFirstChar(Encodings, "br");
  }

  const PlKey := "pl"
  const ModeKey := "mts.0"
  const PartKey := "parts.0"
  const LocationKey := "location"

  function QueryMap(deviceCode: string, location: string): map<string, string>
  {
    map[PlKey := "true", ModeKey := "regular", PartKey := deviceCode, LocationKey := location]
  }

  /** The query map `doMonitor` fills for one device: the fixed flags
      `pl=true` and `mts.0=regular`, the device code under `parts.0` and the
      configured location under `location`. */
  method BuildQuery(deviceCode: string, location: string) returns (q: map<string, string>)
    ensures q == QueryMap(deviceCode, location)
    ensures q.Keys == {PlKey, ModeKey, PartKey, LocationKey}
    ensures q[PlKey] == "true" && q[ModeKey] == "regular"
    ensures q[PartKey] == deviceCode && q[LocationKey] == location
  {
    q := map[];
    q := q[PlKey := "true"];
    q := q[ModeKey := "regular"];
    q := q[PartKey := deviceCode];
    q := q[LocationKey := location];
  }

  /** The storefront page fetched to collect session cookies. */
  function WarmUpUrl(baseUrl: string): string
  {
    baseUrl + "/shop/buy-iphone"
  }

  /** The fulfillment lookup, before the encoded query is appended after `?`. */
  function ApiUrl(baseUrl: string): string
  {
    baseUrl + "/shop/fulfillment-messages"
  }
}
