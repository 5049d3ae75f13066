/** The fixed pool of client identities `makeRequest` draws the User-Agent header from. */
module UserAgents {

  const UserAgents: seq<string> := [
    "Mozilla/5.0 (Windows NT 10.0; Win64; x64) AppleWebKit/537.36 (KHTML, like Gecko) Chrome/90.0.4430.212 Safari/537.36",
    "Mozilla/5.0 (Macintosh; Intel Mac OS X 10_15_7) AppleWebKit/605.1.15 (KHTML, like Gecko) Version/14.0.3 Safari/605.1.15",
    "Mozilla/5.0 (Linux; Android 11; Pixel 5) AppleWebKit/537.36 (KHTML, like Gecko) Chrome/90.0.4430.212 Mobile Safari/537.36",
    "Mozilla/5.0 (iPhone; CPU iPhone OS 14_0 like Mac OS X) AppleWebKit/605.1.15 (KHTML, like Gecko) Version/14.0 Mobile/15E148 Safari/604.1",
    "Mozilla/5.0 (Windows NT 10.0; WOW64; rv:89.0) Gecko/20100101 Firefox/89.0",
    "Mozilla/5.0 (Linux; Android 10; SM-G950F Build/QP1A.190711.020; wv) AppleWebKit/537.36 (KHTML, like Gecko) Version/4.0 Chrome/79.0.3945.136 Mobile Safari/537.36",
    "Mozilla/5.0 (X11; Ubuntu; Linux x86_64; rv:93.0) Gecko/20100101 Firefox/93.0",
    "Mozilla/5.0 (Windows NT 6.1; WOW64; Trident/7.0; AS; rv:11.0) like Gecko",
    "Mozilla/5.0 (Linux; U; Android 4.1.1; en-us; Galaxy Nexus Build/JRO03C) AppleWebKit/534.30 (KHTML, like Gecko) Version/4.0 Mobile Safari/534.30",
    "Mozilla/5.0 (compatible; Googlebot/2.1; +http://www.google.com/bot.html)",
    "Mozilla/5.0 (compatible; curl/7.68.0; +https://curl.se/)",
    "curl/7.68.0"
  ]

  /**
    `randomUserAgent`: the identity at the drawn index. The draw `rand.Intn(len(userAgents))`
    is the parameter `draw`, which lies in `[0, |UserAgents|)`.
   */
  function RandomUserAgent(draw: nat): (ua: string)
    requires draw < |UserAgents|
    ensures ua in UserAgents && ua != ""
  {
    UserAgents[draw]
  }

  /** Every identity of the pool can be drawn, each by exactly one index: a uniform draw picks a uniform identity. */
  lemma {:induction false} EachAgentDrawnOnce(ua: string)
    requires ua in UserAgents
    ensures exists i :: 0 <= i < |UserAgents| && RandomUserAgent(i) == ua
    ensures forall i, j :: 0 <= i < |UserAgents| && 0 <= j < |UserAgents| && RandomUserAgent(i) == ua && RandomUserAgent(j) == ua ==> i == j
  {
    var i :| 0 <= i < |UserAgents| && UserAgents[i] == ua;
    assert RandomUserAgent(i) == ua;
  }
}
