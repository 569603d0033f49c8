/**
 * `ResourceRequest`: the description of one download, with its field
 * defaults and the `With*` builders. Each builder returns the request with
 * one field replaced; the `const&` overloads copy the receiver first and
 * the `&&` overloads update a temporary, and both yield the same value.
 */
module ResourceRequests {
  import opened Wrappers
  import opened Int64
  import opened Deltas

  /** `uint8_t`. */
  newtype byte = x: int | 0 <= x < 256

  datatype ResourceRequest = ResourceRequest(
    url: string,
    headers: seq<string>,
    postData: Option<seq<byte>>,
    headersOnly: bool,
    timeout: TimeDelta,
    connectTimeout: TimeDelta,
    followRedirects: bool)

  /** `kNoTimeout`: a default-constructed `TimeDelta`. */
  const NoTimeout := TimeDelta(0)

  /** A request for `url` with every other field at its default. */
  function Request(url: string): (r: ResourceRequest)
    ensures r.url == url && r.headers == [] && r.postData == None
    ensures !r.headersOnly && r.followRedirects
    ensures IsZero(r.timeout) && IsZero(r.connectTimeout)
  {
    ResourceRequest(url, [], None, false, NoTimeout, NoTimeout, true)
  }

  function WithHeaders(r: ResourceRequest, headers: seq<string>): (s: ResourceRequest)
    ensures s.headers == headers && s.(headers := r.headers) == r
  {
    r.(headers := headers)
  }

  function WithPostData(r: ResourceRequest, data: seq<byte>): (s: ResourceRequest)
    ensures s.postData == Some(data) && s.(postData := r.postData) == r
  {
    r.(postData := Some(data))
  }

  /** The bytes of a string: each `char` converted to `uint8_t`. */
  function Bytes(text: string): (b: seq<byte>)
    ensures |b| == |text|
    ensures forall i :: 0 <= i < |text| ==> b[i] as int == (text[i] as int) % 256
  {
    seq(|text|, i requires 0 <= i < |text| => ((text[i] as int) % 256) as byte)
  }

  /** The `string_view` overload: the characters become the post data, byte by byte. */
  function WithPostDataString(r: ResourceRequest, text: string): (s: ResourceRequest)
    ensures s.postData.Some? && |s.postData.value| == |text| && s.(postData := r.postData) == r
  {
    r.(postData := Some(Bytes(text)))
  }

  /** `WithHeadersOnly`, whose argument defaults to `true`. */
  function WithHeadersOnly(r: ResourceRequest, headersOnly: bool := true): (s: ResourceRequest)
    ensures s.headersOnly == headersOnly && s.(headersOnly := r.headersOnly) == r
  {
    r.(headersOnly := headersOnly)
  }

  function WithTimeout(r: ResourceRequest, timeout: TimeDelta): (s: ResourceRequest)
    ensures s.timeout == timeout && s.(timeout := r.timeout) == r
  {
    r.(timeout := timeout)
  }

  function WithConnectTimeout(r: ResourceRequest, connectTimeout: TimeDelta): (s: ResourceRequest)
    ensures s.connectTimeout == connectTimeout && s.(connectTimeout := r.connectTimeout) == r
  {
    r.(connectTimeout := connectTimeout)
  }

  /** `WithFollowRedirects`, whose argument defaults to `true`. */
  function WithFollowRedirects(r: ResourceRequest, followRedirects: bool := true): (s: ResourceRequest)
    ensures s.followRedirects == followRedirects && s.(followRedirects := r.followRedirects) == r
  {
    r.(followRedirects := followRedirects)
  }

  /** The string overload and the byte overload agree on the bytes of the string. */
  lemma StringPostDataIsItsBytes(r: ResourceRequest, text: string)
    ensures WithPostDataString(r, text) == WithPostData(r, Bytes(text))
    ensures forall i :: 0 <= i < |text| && text[i] as int < 256 ==> WithPostDataString(r, text).postData.value[i] as int == text[i] as int
  {
  }

  /** The flag builders called without an argument switch their flag on. */
  lemma FlagBuildersDefaultToTrue(r: ResourceRequest)
    ensures WithHeadersOnly(r).headersOnly && WithFollowRedirects(r).followRedirects
    ensures WithHeadersOnly(r).url == r.url && WithFollowRedirects(r).url == r.url
  {
  }

  /** Setting a field twice keeps only the second value. */
  lemma LastWriteWins(r: ResourceRequest, h1: seq<string>, h2: seq<string>, t1: TimeDelta, t2: TimeDelta, b1: bool, b2: bool)
    ensures WithHeaders(WithHeaders(r, h1), h2) == WithHeaders(r, h2)
    ensures WithTimeout(WithTimeout(r, t1), t2) == WithTimeout(r, t2)
    ensures WithConnectTimeout(WithConnectTimeout(r, t1), t2) == WithConnectTimeout(r, t2)
    ensures WithHeadersOnly(WithHeadersOnly(r, b1), b2) == WithHeadersOnly(r, b2)
    ensures WithFollowRedirects(WithFollowRedirects(r, b1), b2) == WithFollowRedirects(r, b2)
  {
  }

  /** Builders of different fields can be chained in either order. */
  lemma BuildersCommute(r: ResourceRequest, headers: seq<string>, data: seq<byte>, timeout: TimeDelta, connectTimeout: TimeDelta)
    ensures WithPostData(WithHeaders(r, headers), data) == WithHeaders(WithPostData(r, data), headers)
    ensures WithTimeout(WithConnectTimeout(r, connectTimeout), timeout) == WithConnectTimeout(WithTimeout(r, timeout), connectTimeout)
    ensures WithHeadersOnly(WithFollowRedirects(r)) == WithFollowRedirects(WithHeadersOnly(r))
  {
  }
}
