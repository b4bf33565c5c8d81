/** The API gateway's proxy to the services: the path rewrite that drops the
    service prefix, and the headers it injects into the forwarded request. */
module GatewayProxy {
  import opened Wrappers
  import Guards
  import Text

  /** The length of the longest prefix of `s` without a '/': what `[^/]+` can
      match from the start of `s`. */
  function SegmentLength(s: string): (n: nat)
    ensures n <= |s|
    ensures forall i :: 0 <= i < n ==> s[i] != '/'
    ensures n < |s| ==> s[n] == '/'
  {
    if |s| == 0 || s[0] == '/' then 0 else 1 + SegmentLength(s[1..])
  }

  /** `path.replace(/^\/[^/]+/, '')`: a leading '/' and the non-empty segment
      after it are removed; a path not starting that way is left alone. */
  function PathRewrite(path: string): (r: string)
    ensures |r| <= |path| && r == path[|path| - |r|..]
    ensures r != path <==> |path| >= 2 && path[0] == '/' && path[1] != '/'
    ensures r != path ==> r == "" || r[0] == '/'
  {
    if |path| >= 1 && path[0] == '/' && SegmentLength(path[1..]) > 0
    then path[1 + SegmentLength(path[1..])..]
    else path
  }

  lemma {:induction false} SegmentLengthOf(seg: string, rest: string)
    requires forall i :: 0 <= i < |seg| ==> seg[i] != '/'
    requires rest == "" || rest[0] == '/'
    ensures SegmentLength(seg + rest) == |seg|
  {
    if |seg| > 0 {
      assert (seg + rest)[1..] == seg[1..] + rest;
      SegmentLengthOf(seg[1..], rest);
    } else {
      assert seg + rest == rest;
    }
  }

  /** The first segment goes and everything after it is kept verbatim. */
  lemma PathRewriteDropsFirstSegment(seg: string, rest: string)
    requires |seg| > 0 && forall i :: 0 <= i < |seg| ==> seg[i] != '/'
    requires rest == "" || rest[0] == '/'
    ensures PathRewrite("/" + seg + rest) == rest
  {
    var path := "/" + seg + rest;
    assert path[1..] == seg + rest;
    SegmentLengthOf(seg, rest);
    assert path[1 + |seg|..] == rest;
  }

  /** `/products/123` is forwarded as `/123`; `/` and `//x` are forwarded unchanged. */
  lemma PathRewriteExamples()
    ensures PathRewrite("/products/123") == "/123"
    ensures PathRewrite("/products") == ""
    ensures PathRewrite("/") == "/" && PathRewrite("//x") == "//x"
  {
    PathRewriteDropsFirstSegment("products", "/123");
    PathRewriteDropsFirstSegment("products", "");
    assert "/" + "products" + "/123" == "/products/123";
    assert "/" + "products" + "" == "/products";
  }

  /** Node keeps header names case-insensitively, under their lower-case
      spelling: `setHeader('X-User-Role', …)` replaces an incoming
      `x-user-role`. The names are therefore modelled lower-case. */
  const GATEWAY_SECRET_HEADER: string := "x-gateway-secret"
  const USER_ID_HEADER: string := "x-user-id"
  const USER_ROLE_HEADER: string := "x-user-role"

  /** `name` holds no ASCII capital letter. */
  predicate NoCapitals(name: string)
  {
    forall i :: 0 <= i < |name| ==> !('A' <= name[i] <= 'Z')
  }

  /** Every header name is stored in its lower-case spelling. */
  predicate LowerCaseNames(headers: map<string, string>)
  {
    forall name :: name in headers ==> NoCapitals(name)
  }

  /** A name without ASCII capitals is its own lower-case spelling. */
  lemma LowerCaseFixed(name: string)
    requires NoCapitals(name)
    ensures Text.ToLower(name) == name
  {
    var lower := Text.ToLower(name);
    assert forall i :: 0 <= i < |name| ==> lower[i] == name[i];
  }

  lemma InjectedNamesLowerCase()
    ensures NoCapitals(GATEWAY_SECRET_HEADER) && NoCapitals(USER_ID_HEADER) && NoCapitals(USER_ROLE_HEADER)
  {
  }

  /** Setting a lower-case name keeps every name lower-case. */
  lemma SetKeepsLowerCase(headers: map<string, string>, name: string, value: string)
    requires LowerCaseNames(headers) && NoCapitals(name)
    ensures LowerCaseNames(headers[name := value])
  {
  }

  /** With names stored lower-case, a header map holds at most one spelling
      of any name: whatever case the client used for `x-user-role`, the
      only entry it can match is the one `OnProxyReq` overwrites. */
  lemma OneSpellingPerName(headers: map<string, string>, name: string, target: string)
    requires LowerCaseNames(headers) && NoCapitals(target) && name in headers
    requires Text.ToLower(name) == Text.ToLower(target)
    ensures name == target
  {
    LowerCaseFixed(name);
    LowerCaseFixed(target);
  }

  /** The identity the gateway's auth step attached to the request. */
  datatype GatewayUser = GatewayUser(sub: string, role: string)

  /** `configService.get('GATEWAY_SHARED_SECRET') || ''`. */
  function SecretOrEmpty(configured: Option<string>): (s: string)
    ensures Truthy(configured) ==> s == configured.value
    ensures !Truthy(configured) ==> s == ""
  {
    if configured.Some? then configured.value else ""
  }

  /** The forwarded request of the `proxyReq` hook, reduced to its headers. */
  class ProxyRequest {
    var headers: map<string, string>

    constructor (headers: map<string, string>)
      ensures this.headers == headers
    {
      this.headers := headers;
    }

    /** The `proxyReq` hook: the shared secret is always set, '' when not
        configured; the user's id and role are set only when a user is
        attached. Other headers are left as they were. Because names are
        compared ignoring case, when a user is attached a client cannot
        smuggle its own identity headers past the gateway under a different
        spelling; when none is, client-sent `x-user-id` and `x-user-role`
        are forwarded unchanged. */
    method OnProxyReq(configuredSecret: Option<string>, user: Option<GatewayUser>)
      requires LowerCaseNames(headers)
      modifies this
      ensures LowerCaseNames(headers)
      ensures GATEWAY_SECRET_HEADER in headers && headers[GATEWAY_SECRET_HEADER] == SecretOrEmpty(configuredSecret)
      ensures user.None? ==> headers == old(headers)[GATEWAY_SECRET_HEADER := SecretOrEmpty(configuredSecret)]
      ensures user.Some? ==> headers == old(headers)[GATEWAY_SECRET_HEADER := SecretOrEmpty(configuredSecret)]
                                                    [USER_ID_HEADER := user.value.sub]
                                                    [USER_ROLE_HEADER := user.value.role]
    {
      InjectedNamesLowerCase();
      SetKeepsLowerCase(headers, GATEWAY_SECRET_HEADER, SecretOrEmpty(configuredSecret));
      headers := headers[GATEWAY_SECRET_HEADER := SecretOrEmpty(configuredSecret)];
      if user.Some? {
        SetKeepsLowerCase(headers, USER_ID_HEADER, user.value.sub);
        headers := headers[USER_ID_HEADER := user.value.sub];
        SetKeepsLowerCase(headers, USER_ROLE_HEADER, user.value.role);
        headers := headers[USER_ROLE_HEADER := user.value.role];
      }
    }
  }

  /** Gateway and finance service together: a forwarded request passes the
      shared-secret guard exactly when both sides hold the same non-empty
      secret. A gateway without a secret sends '' and is turned away by a
      finance service that has one. */
  lemma ForwardedSecretPasses(gatewaySecret: Option<string>, serviceSecret: Option<string>)
    ensures Guards.ServiceCanActivate(serviceSecret, Some(SecretOrEmpty(gatewaySecret))) == Ok(true)
        <==> Truthy(serviceSecret) && Truthy(gatewaySecret) && gatewaySecret == serviceSecret
    ensures Truthy(serviceSecret) && !Truthy(gatewaySecret) ==>
      Guards.ServiceCanActivate(serviceSecret, Some(SecretOrEmpty(gatewaySecret))) == Err(Guards.ServiceAuthFailed)
  {
  }
}
