/**
 * The request wrapper every page goes through: it attaches the JSON content
 * type and the stored bearer token, resolves a path against the API
 * server, adds a cache-busting timestamp to GET requests, and sorts the
 * reply into resolved data, an expired session or a rejection.
 */
module Request {
  import opened Wrappers
  import opened Text

  const BaseUrl := "https://api.homesee.xyz"
  const JsonType := "application/json"
  const DefaultTimeout := 10000
  const LoginPage := "/pages/login/login"

  type Fields = map<string, string>

  /** The `user` record kept in local storage; only its token matters here. */
  datatype StoredUser = StoredUser(token: Option<string>)

  /** What reading `user` from local storage gives: it may throw, or hold nothing. */
  datatype Storage = Unreadable | Holding(user: Option<StoredUser>)

  /** `getToken`: the stored token, or the empty string when there is none or storage fails. */
  function GetToken(storage: Storage): (token: string)
    ensures token != "" <==> storage.Holding? && storage.user.Some? && Truthy(storage.user.value.token)
    ensures token != "" ==> token == storage.user.value.token.value
  {
    match storage
    case Unreadable => ""
    case Holding(None) => ""
    case Holding(Some(u)) => Or(u.token, "")
  }

  /** The options object handed to `request`; `None` is a key left out. */
  datatype Options = Options(
    url: string,
    httpMethod: Option<string>,
    data: Option<Fields>,
    header: Option<Fields>,
    noCache: Option<bool>,
    timeout: Option<int>)

  /** The object passed on to `wx.request`. */
  datatype WxRequest = WxRequest(url: string, httpMethod: string, data: Fields, header: Fields, timeout: int)

  /** The headers the caller supplied. */
  function CallerHeaders(options: Options): Fields {
    options.header.GetOr(map[])
  }

  /** A path is resolved against the API server; a full `http…` URL is kept. */
  function FullUrl(url: string): (r: string)
    ensures StartsWith(r, "http")
    ensures StartsWith(url, "http") ==> r == url
    ensures !StartsWith(url, "http") ==> |r| == |BaseUrl| + |url| && r[..|BaseUrl|] == BaseUrl && r[|BaseUrl|..] == url
  {
    if StartsWith(url, "http") then url else BaseUrl + url
  }

  /**
   * A timestamp is added only when the method is exactly `GET` and `noCache`
   * is anything but `false`; a request whose method is left out is sent as
   * GET but without a timestamp.
   */
  predicate Busts(options: Options) {
    options.httpMethod == Some("GET") && options.noCache != Some(false)
  }

  /** The separator before `_t`: `&` when the URL already has a query. */
  function Separator(url: string): (r: string)
    ensures |r| == 1 && (r == "&" <==> Contains(url, "?")) && (r == "?" <==> !Contains(url, "?"))
  {
    if Contains(url, "?") then "&" else "?"
  }

  /**
   * The headers `request` sends: the JSON content type, which a caller's
   * header may replace, then the bearer token, which replaces any
   * `Authorization` the caller gave; without a token the caller's
   * `Authorization` is sent as given.
   */
  method BuildHeaders(caller: Fields, token: string) returns (headers: Fields)
    ensures headers.Keys == caller.Keys + {"Content-Type"} + (if token != "" then {"Authorization"} else {})
    ensures headers["Content-Type"] == if "Content-Type" in caller then caller["Content-Type"] else JsonType
    ensures token != "" ==> "Authorization" in headers && headers["Authorization"] == "Bearer " + token
    ensures forall k :: k in caller && (k != "Authorization" || token == "") ==> headers[k] == caller[k]
  {
    headers := map["Content-Type" := JsonType];
    headers := headers + caller;
    if token != "" {
      headers := headers["Authorization" := "Bearer " + token];
    }
  }

  /**
   * The URL `request` sends to: the resolved URL, followed for a
   * cache-busting request by `_t=` and the current time, after `&` when
   * the URL already has a query and after `?` otherwise.
   */
  method BuildUrl(options: Options, now: int) returns (url: string)
    ensures var full := FullUrl(options.url);
            && StartsWith(url, full)
            && (Busts(options) ==> url[|full|..] == Separator(full) + "_t=" + IntToString(now))
            && (!Busts(options) ==> url == full)
  {
    url := options.url;
    if !StartsWith(url, "http") {
      url := BaseUrl + url;
    }
    ghost var full := url;
    if options.httpMethod == Some("GET") && options.noCache != Some(false) {
      var separator := Separator(url);
      url := url + separator + "_t=" + IntToString(now);
      assert url[..|full|] == full && url[|full|..] == separator + "_t=" + IntToString(now);
    }
  }

  /**
   * `req` is what `request` hands to `wx.request` for `options`: the
   * caller's headers with the JSON default and the stored token as a
   * bearer credential, the full URL with the `_t` timestamp when it busts
   * the cache, the method (`GET` by default), the data and the timeout.
   */
  predicate PreparedFor(req: WxRequest, options: Options, storage: Storage, now: int) {
    && (var token, caller := GetToken(storage), CallerHeaders(options);
        && req.header.Keys == caller.Keys + {"Content-Type"} + (if token != "" then {"Authorization"} else {})
        && req.header["Content-Type"] == (if "Content-Type" in caller then caller["Content-Type"] else JsonType)
        && (token != "" ==> "Authorization" in req.header && req.header["Authorization"] == "Bearer " + token)
        && (forall k :: k in caller && (k != "Authorization" || token == "") ==> req.header[k] == caller[k]))
    && (var full := FullUrl(options.url);
        && StartsWith(req.url, full)
        && (Busts(options) ==> req.url[|full|..] == Separator(full) + "_t=" + IntToString(now))
        && (!Busts(options) ==> req.url == full))
    && (Truthy(options.httpMethod) ==> req.httpMethod == options.httpMethod.value)
    && (!Truthy(options.httpMethod) ==> req.httpMethod == "GET")
    && (req.data == options.data.GetOr(map[]))
    && (req.timeout == if options.timeout.Some? && options.timeout.value != 0 then options.timeout.value else DefaultTimeout)
  }

  /**
   * Builds the `wx.request` arguments the way `request` does: headers first,
   * then the URL, then the defaults for method, data and timeout.
   */
  method Prepare(options: Options, storage: Storage, now: int) returns (req: WxRequest)
    ensures PreparedFor(req, options, storage, now)
  {
    var token := GetToken(storage);
    var headers := BuildHeaders(CallerHeaders(options), token);
    var url := BuildUrl(options, now);
    var timeout := if options.timeout.Some? && options.timeout.value != 0 then options.timeout.value else DefaultTimeout;
    req := WxRequest(url, Or(options.httpMethod, "GET"), options.data.GetOr(map[]), headers, timeout);
  }

  /** The fields of a reply body the wrapper looks at. */
  datatype Body = Body(code: Option<int>, message: Option<string>, fields: Fields)

  /** A reply delivered by `wx.request`; a falsy body, whose `code` the wrapper does not read, is `None`. */
  datatype Reply = Reply(statusCode: int, data: Option<Body>)

  /** What `wx.request` calls back with. */
  datatype Transport = Delivered(reply: Reply) | NotDelivered(errMsg: Option<string>)

  /** How the promise returned by `request` settles. */
  datatype Outcome =
    | Resolved(data: Option<Body>)
    | Expired(reply: Reply)
    | Rejected(reply: Reply, toast: string)
    | Failed(errMsg: Option<string>)

  /** `checkTokenExpired` */
  predicate TokenExpired(reply: Reply) {
    reply.statusCode == 401 || (reply.data.Some? && reply.data.value.code == Some(401))
  }

  predicate Success(statusCode: int) {
    200 <= statusCode < 300
  }

  function Settle(t: Transport): Outcome {
    match t
    case NotDelivered(err) => Failed(err)
    case Delivered(reply) =>
      if TokenExpired(reply) then Expired(reply)
      else if Success(reply.statusCode) then Resolved(reply.data)
      else
        var message := if reply.data.Some? then reply.data.value.message else None;
        Rejected(reply, Or(message, "请求失败: " + IntToString(reply.statusCode)))
  }

  /**
   * A delivered reply resolves with its body exactly when the session has
   * not expired and the status is 2xx; an expired session (status 401 or
   * body code 401) rejects even on a 2xx status; every other reply is
   * rejected with the body's message or the status code; a transport
   * failure is passed on.
   */
  lemma SettleSpec(t: Transport)
    ensures t.NotDelivered? <==> Settle(t).Failed?
    ensures t.NotDelivered? ==> Settle(t).errMsg == t.errMsg
    ensures t.Delivered? ==> (Settle(t).Expired? <==> TokenExpired(t.reply))
    ensures t.Delivered? ==> (Settle(t).Resolved? <==> !TokenExpired(t.reply) && Success(t.reply.statusCode))
    ensures Settle(t).Resolved? ==> Settle(t).data == t.reply.data
    ensures t.Delivered? ==> (Settle(t).Rejected? <==> !TokenExpired(t.reply) && !Success(t.reply.statusCode))
    ensures Settle(t).Rejected? && t.reply.data.Some? && Truthy(t.reply.data.value.message) ==>
              Settle(t).toast == t.reply.data.value.message.value
    ensures Settle(t).Rejected? && (t.reply.data.None? || !Truthy(t.reply.data.value.message)) ==>
              Settle(t).toast == "请求失败: " + IntToString(t.reply.statusCode)
  {
  }

  /** The toast `handleError` shows for a transport failure, if any. */
  function ErrorToast(errMsg: Option<string>): (r: Option<string>)
    ensures r.Some? ==> Truthy(errMsg)
  {
    if Truthy(errMsg) && Contains(errMsg.value, "timeout") then Some("请求超时")
    else if Truthy(errMsg) && Contains(errMsg.value, "fail") then Some("网络错误")
    else None
  }

  /** A timeout takes precedence over a generic failure; other messages show nothing. */
  lemma ErrorToastSpec(errMsg: Option<string>)
    ensures Truthy(errMsg) && Contains(errMsg.value, "timeout") ==> ErrorToast(errMsg) == Some("请求超时")
    ensures Truthy(errMsg) && !Contains(errMsg.value, "timeout") && Contains(errMsg.value, "fail") ==> ErrorToast(errMsg) == Some("网络错误")
    ensures ErrorToast(errMsg).None? <==> !Truthy(errMsg) || (!Contains(errMsg.value, "timeout") && !Contains(errMsg.value, "fail"))
  {
  }

  /** The `options` argument of the shortcuts; every key it has overrides the shortcut's own. */
  datatype Extra = Extra(
    url: Option<string>,
    httpMethod: Option<string>,
    data: Option<Fields>,
    header: Option<Fields>,
    noCache: Option<bool>,
    timeout: Option<int>)

  const NoExtra := Extra(None, None, None, None, None, None)

  /** `get`, `post`, `put` and `del`: `{ url, method: verb, data, ...options }`. */
  function Shortcut(verb: string, url: string, data: Fields, extra: Extra): (o: Options)
    ensures o.header == extra.header && o.noCache == extra.noCache && o.timeout == extra.timeout
  {
    Options(extra.url.GetOr(url), Some(extra.httpMethod.GetOr(verb)), Some(extra.data.GetOr(data)),
            extra.header, extra.noCache, extra.timeout)
  }

  function Get(url: string, data: Fields, extra: Extra): Options {
    Shortcut("GET", url, data, extra)
  }

  function Post(url: string, data: Fields, extra: Extra): Options {
    Shortcut("POST", url, data, extra)
  }

  function Put(url: string, data: Fields, extra: Extra): Options {
    Shortcut("PUT", url, data, extra)
  }

  function Del(url: string, data: Fields, extra: Extra): Options {
    Shortcut("DELETE", url, data, extra)
  }

  /** The shortcut's verb, URL and data hold unless the caller's options override them. */
  lemma ShortcutSpec(verb: string, url: string, data: Fields, extra: Extra)
    ensures var o := Shortcut(verb, url, data, extra);
            && (extra.httpMethod.None? ==> o.httpMethod == Some(verb))
            && (extra.httpMethod.Some? ==> o.httpMethod == extra.httpMethod)
            && (extra.url.None? ==> o.url == url)
            && (extra.url.Some? ==> o.url == extra.url.value)
            && (extra.data.None? ==> o.data == Some(data))
            && (extra.data.Some? ==> o.data == extra.data)
  {
  }

  /**
   * `get` busts the cache unless the caller turns `noCache` off or
   * overrides the method; `post`, `put` and `del` never do unless the
   * caller sets the method to `GET`.
   */
  lemma ShortcutBusts(url: string, data: Fields, extra: Extra)
    ensures Busts(Get(url, data, extra)) <==> (extra.httpMethod.None? || extra.httpMethod == Some("GET")) && extra.noCache != Some(false)
    ensures Busts(Post(url, data, extra)) <==> extra.httpMethod == Some("GET") && extra.noCache != Some(false)
    ensures Busts(Put(url, data, extra)) <==> extra.httpMethod == Some("GET") && extra.noCache != Some(false)
    ensures Busts(Del(url, data, extra)) <==> extra.httpMethod == Some("GET") && extra.noCache != Some(false)
  {
  }

  /**
   * The client's session: the stored user that supplies the token and that
   * an expired reply removes.
   */
  class Client {
    var storage: Storage

    constructor(storage: Storage)
      ensures this.storage == storage
    {
      this.storage := storage;
    }

    /**
     * `request`: the arguments are built from the options and the stored
     * token, `transport` is what `wx.request` calls back with; an expired
     * session clears the stored user.
     */
    method Send(options: Options, now: int, transport: Transport) returns (req: WxRequest, outcome: Outcome)
      modifies this
      ensures PreparedFor(req, options, old(storage), now)
      ensures GetToken(old(storage)) != "" ==> "Authorization" in req.header && req.header["Authorization"] == "Bearer " + GetToken(old(storage))
      ensures StartsWith(req.url, FullUrl(options.url))
      ensures outcome == Settle(transport)
      ensures storage == if outcome.Expired? then Holding(None) else old(storage)
    {
      req := Prepare(options, storage, now);
      outcome := Settle(transport);
      if outcome.Expired? {
        storage := Holding(None);
      }
    }
  }
}
