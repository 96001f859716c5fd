/** init_web3: endpoint failover over the configured list of RPC URLs.

    Building a provider for a URL and asking it `is_connected()` is one probe;
    the network's answer is an oracle from URL to probe outcome. */
module Failover {
  import opened Wrappers

  type Url = string

  /** What probing one URL yields: connected, not connected, or an exception. */
  datatype Probe = Connected | NotConnected | Throws

  /** The live connection handed back: the position of its URL in the list, and the URL. */
  datatype Connection = Connection(index: nat, url: Url)

  /** Raised when every endpoint failed. */
  datatype ConnectError = NoEndpointAvailable

  /** Tries the URLs strictly in list order, each at most once, and returns the
      first whose probe reports connected; nothing after it is probed. When no
      probe reports connected, every URL has been probed and the call fails.
      `probed` is the sequence of URLs probed, in order. */
  method InitWeb3(urls: seq<Url>, probe: Url -> Probe)
    returns (r: Result<Connection, ConnectError>, probed: seq<Url>)
    ensures r.Ok? ==>
      var i := r.value.index;
      i < |urls| && r.value.url == urls[i] && probe(urls[i]) == Connected
      && probed == urls[..i + 1]
      && forall j :: 0 <= j < i ==> probe(urls[j]) != Connected
    ensures r.Err? ==>
      r.error == NoEndpointAvailable && probed == urls
      && forall j :: 0 <= j < |urls| ==> probe(urls[j]) != Connected
  {
    probed := [];
    var i := 0;
    while i < |urls|
      invariant 0 <= i <= |urls|
      invariant probed == urls[..i]
      invariant forall j :: 0 <= j < i ==> probe(urls[j]) != Connected
    {
      var url := urls[i];
      probed := probed + [url];
      // NotConnected and Throws both move on to the next URL
      if probe(url) == Connected {
        return Ok(Connection(i, url)), probed;
      }
      i := i + 1;
    }
    assert urls[..|urls|] == urls;
    r := Err(NoEndpointAvailable);
  }
}
