/** `SecurityHeadersBuilder` (src/lib/middleware/SecurityHeaders.ts): a header map set to
    eight defaults on construction and overwritten step by step by fluent methods that
    return the builder itself. */
module SecurityHeaders {
  import opened Wrappers

  const ContentType := "Content-Type"
  const ContentSecurityPolicy := "Content-Security-Policy"
  const AllowOrigin := "Access-Control-Allow-Origin"
  const AllowMethods := "Access-Control-Allow-Methods"
  const AllowHeaders := "Access-Control-Allow-Headers"

  /** The names of the headers `setDefaults` installs. */
  const DefaultNames: set<string> := {ContentType, "X-Content-Type-Options", "X-Frame-Options",
    "X-XSS-Protection", "Referrer-Policy", AllowOrigin, AllowMethods, AllowHeaders}

  /** The headers `setDefaults` installs: no Content-Security-Policy among them. */
  function Defaults(): (h: map<string, string>)
    ensures h.Keys == DefaultNames && ContentSecurityPolicy !in h
    ensures h[ContentType] == "application/json"
  {
    map[
      ContentType := "application/json",
      "X-Content-Type-Options" := "nosniff",
      "X-Frame-Options" := "DENY",
      "X-XSS-Protection" := "1; mode=block",
      "Referrer-Policy" := "strict-origin-when-cross-origin",
      AllowOrigin := "*",
      AllowMethods := "GET, POST, OPTIONS",
      AllowHeaders := "Content-Type, Authorization"]
  }

  /** `withCORS`'s three headers set on `h`, each argument defaulting as in the source. */
  function CorsSet(h: map<string, string>, origin: Option<string>, methods: Option<string>, headers: Option<string>)
    : (r: map<string, string>)
    ensures r.Keys == h.Keys + {AllowOrigin, AllowMethods, AllowHeaders}
    ensures forall k :: k in h && k !in {AllowOrigin, AllowMethods, AllowHeaders} ==> r[k] == h[k]
    ensures r[AllowOrigin] == origin.GetOr("*")
    ensures r[AllowMethods] == methods.GetOr("GET, POST, OPTIONS")
    ensures r[AllowHeaders] == headers.GetOr("Content-Type, Authorization")
  {
    h[AllowOrigin := origin.GetOr("*")][AllowMethods := methods.GetOr("GET, POST, OPTIONS")]
     [AllowHeaders := headers.GetOr("Content-Type, Authorization")]
  }

  /** Calling `withCORS` with no arguments on a fresh builder changes nothing: its defaults
      are the constructor's. */
  lemma CorsDefaultsAreDefaults()
    ensures CorsSet(Defaults(), None, None, None) == Defaults()
  {
  }

  class SecurityHeadersBuilder {
    var headers: map<string, string>

    /** `new SecurityHeadersBuilder()`. */
    constructor()
      ensures headers == Defaults()
    {
      headers := Defaults();
    }

    /** `withCSP(policy)`: sets only Content-Security-Policy. */
    method WithCSP(policy: string) returns (self: SecurityHeadersBuilder)
      modifies this
      ensures self == this
      ensures headers == old(headers)[ContentSecurityPolicy := policy]
    {
      headers := headers[ContentSecurityPolicy := policy];
      self := this;
    }

    /** `withCORS(origin = '*', methods = 'GET, POST, OPTIONS', headers = 'Content-Type,
        Authorization')`; `None` is an omitted argument. */
    method WithCORS(origin: Option<string>, methods: Option<string>, allowHeaders: Option<string>)
      returns (self: SecurityHeadersBuilder)
      modifies this
      ensures self == this
      ensures headers == CorsSet(old(headers), origin, methods, allowHeaders)
    {
      headers := headers[AllowOrigin := origin.GetOr("*")];
      headers := headers[AllowMethods := methods.GetOr("GET, POST, OPTIONS")];
      headers := headers[AllowHeaders := allowHeaders.GetOr("Content-Type, Authorization")];
      self := this;
    }

    /** `withContentType(type)`: overwrites only Content-Type. */
    method WithContentType(contentType: string) returns (self: SecurityHeadersBuilder)
      modifies this
      ensures self == this
      ensures headers == old(headers)[ContentType := contentType]
    {
      headers := headers[ContentType := contentType];
      self := this;
    }

    /** `build()`. */
    method Build() returns (h: map<string, string>)
      ensures h == headers
    {
      h := headers;
    }
  }

  /** `SecurityHeadersBuilder.json()`: exactly the defaults, since the content type it sets is
      the default one. */
  method Json() returns (h: map<string, string>)
    ensures h == Defaults()
    ensures ContentSecurityPolicy !in h && h[ContentType] == "application/json"
  {
    var b := new SecurityHeadersBuilder();
    b := b.WithContentType("application/json");
    h := b.Build();
  }

  /** `SecurityHeadersBuilder.api()`: the defaults plus a same-origin content security
      policy, and nothing else. */
  method Api() returns (h: map<string, string>)
    ensures h.Keys == Defaults().Keys + {ContentSecurityPolicy}
    ensures h[ContentSecurityPolicy] == "default-src 'self'"
    ensures forall k :: k in Defaults() ==> h[k] == Defaults()[k]
  {
    var b := new SecurityHeadersBuilder();
    b := b.WithContentType("application/json");
    b := b.WithCSP("default-src 'self'");
    h := b.Build();
  }

  /** The chained calls act on one builder: the last write to a header wins, and headers set
      earlier in the chain survive later calls that do not name them. */
  method ChainedCallsAccumulate(policy: string, contentType: string) returns (h: map<string, string>)
    ensures h.Keys == DefaultNames + {ContentSecurityPolicy}
    ensures h[ContentSecurityPolicy] == policy && h[ContentType] == contentType
    ensures h[AllowOrigin] == "*"
  {
    var b := new SecurityHeadersBuilder();
    var b1 := b.WithCSP(policy);
    var b2 := b1.WithContentType(contentType);
    var b3 := b2.WithCORS(None, None, None);
    h := b.Build();
  }
}
