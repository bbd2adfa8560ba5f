/**
 * The client facts the refresh flow binds a session to, read from the
 * request: its IP address and its User-Agent header.
 */
module RequestInfo {
  import opened Wrappers
  import PyStr

  /**
   * Request headers in the order they arrived, names in lower case as the
   * server stores them; a lookup returns the first value under the name.
   */
  type Headers = seq<(string, string)>

  function HeaderGet(headers: Headers, name: string): (r: Option<string>)
    ensures r.Some? <==> exists i :: 0 <= i < |headers| && headers[i].0 == name
    ensures r.Some? ==> exists i :: (0 <= i < |headers| && headers[i] == (name, r.value)
      && forall j :: 0 <= j < i ==> headers[j].0 != name)
  {
    if headers == [] then None
    else if headers[0].0 == name then Some(headers[0].1)
    else
      var rest := HeaderGet(headers[1..], name);
      assert rest.Some? ==> exists i :: (0 <= i < |headers| && headers[i] == (name, rest.value)
        && forall j :: 0 <= j < i ==> headers[j].0 != name) by {
        if rest.Some? {
          var k :| 0 <= k < |headers[1..]| && headers[1..][k] == (name, rest.value)
            && forall j :: 0 <= j < k ==> headers[1..][j].0 != name;
          assert headers[k + 1] == (name, rest.value);
        }
      }
      rest
  }

  const ForwardedFor: string := "x-forwarded-for"
  const RealIp: string := "x-real-ip"
  const UserAgentHeader: string := "user-agent"
  const Unknown: string := "unknown"

  /** `get_client_ip`; `clientHost` is the connection's peer address, when there is one. */
  function GetClientIp(headers: Headers, clientHost: Option<string>): (ip: string)
    ensures var ff := HeaderGet(headers, ForwardedFor);
      ff.Some? && ff.value != "" ==>
        && ip == PyStr.StripSpace(PyStr.SplitFirst(ff.value, ','))
        && ',' !in ip
        && (ip == [] || (ip[0] !in PyStr.Whitespace && ip[|ip| - 1] !in PyStr.Whitespace))
    ensures var ff := HeaderGet(headers, ForwardedFor); var ri := HeaderGet(headers, RealIp);
      (ff.None? || ff.value == "") && ri.Some? && ri.value != "" ==> ip == ri.value
    ensures var ff := HeaderGet(headers, ForwardedFor); var ri := HeaderGet(headers, RealIp);
      (ff.None? || ff.value == "") && (ri.None? || ri.value == "") ==> ip == clientHost.UnwrapOr(Unknown)
  {
    var forwardedFor := HeaderGet(headers, ForwardedFor);
    if forwardedFor.Some? && forwardedFor.value != "" then
      var first := PyStr.SplitFirst(forwardedFor.value, ',');
      var r := PyStr.StripSpace(first);
      StripInside(first, PyStr.Whitespace);
      r
    else
      var realIp := HeaderGet(headers, RealIp);
      if realIp.Some? && realIp.value != "" then realIp.value
      else if clientHost.Some? then clientHost.value
      else Unknown
  }

  /** Stripping only removes characters: whatever it keeps was in the string. */
  lemma StripInside(s: string, chars: set<char>)
    ensures forall c :: c in PyStr.Strip(s, chars) ==> c in s
  {
    var l := PyStr.LStrip(s, chars);
    assert forall c :: c in PyStr.RStrip(l, chars) ==> c in l;
    assert forall c :: c in l ==> c in s;
  }

  /**
   * The first hop of `X-Forwarded-For` is what is bound to the session:
   * whoever sends the header chooses the address the session is tied to.
   */
  lemma ForwardedForFirstHop(ip: string, rest: string, others: Headers, clientHost: Option<string>)
    requires ip != [] && ',' !in ip && ip[0] !in PyStr.Whitespace && ip[|ip| - 1] !in PyStr.Whitespace
    ensures GetClientIp([(ForwardedFor, ip + "," + rest)] + others, clientHost) == ip
  {
    var h := [(ForwardedFor, ip + "," + rest)] + others;
    assert HeaderGet(h, ForwardedFor) == Some(ip + "," + rest);
    SplitAtComma(ip, rest);
    assert PyStr.LStrip(ip, PyStr.Whitespace) == ip;
    assert PyStr.RStrip(ip, PyStr.Whitespace) == ip;
  }

  lemma SplitAtComma(a: string, b: string)
    requires ',' !in a
    ensures PyStr.SplitFirst(a + "," + b, ',') == a
  {
    var s := a + "," + b;
    var r := PyStr.SplitFirst(s, ',');
    assert s[|a|] == ',';
    assert forall i :: 0 <= i < |a| ==> s[i] == a[i];
  }

  /** `get_user_agent`: the header's value, or the empty string when it is missing. */
  function GetUserAgent(headers: Headers): (ua: string)
    ensures HeaderGet(headers, UserAgentHeader).Some? ==> ua == HeaderGet(headers, UserAgentHeader).value
    ensures HeaderGet(headers, UserAgentHeader).None? ==> ua == ""
  {
    HeaderGet(headers, UserAgentHeader).UnwrapOr("")
  }
}
