/**
 * The RPC client helpers (src/utils/helpers.ts): the base URL the client calls, and the
 * headers it sends, tagged with where the call comes from.
 *
 * The runtime is a parameter: the browser with its window origin, or the server with its
 * `VERCEL_URL` and `PORT` settings and the incoming request's headers.
 */
module Helpers {
  import opened Common
  import opened Js

  /** Where the code runs; on the server, an empty `VERCEL_URL` reads as unset. */
  datatype Runtime = Browser(origin: string) | Server(vercelUrl: Option<string>, port: Option<nat>)

  const DefaultPort := 3000

  /** `getBaseUrl`: the window origin, else the Vercel deployment over https, else localhost. */
  function GetBaseUrl(rt: Runtime): (r: string)
    ensures rt.Browser? ==> r == rt.origin
    ensures rt.Server? && rt.vercelUrl.Some? && rt.vercelUrl.value != "" ==> r == "https://" + rt.vercelUrl.value
    ensures rt.Server? && !(rt.vercelUrl.Some? && rt.vercelUrl.value != "") ==>
      r == "http://localhost:" + Decimal(if rt.port.Some? then rt.port.value else DefaultPort)
  {
    match rt
    case Browser(origin) => origin
    case Server(vercel, port) =>
      if vercel.Some? && vercel.value != "" then "https://" + vercel.value
      else "http://localhost:" + Decimal(if port.Some? then port.value else DefaultPort)
  }

  /** On the server the URL is never the local one when a deployment URL is set, and names port 3000 when no port is. */
  lemma ServerBaseUrls(vercel: string, port: Option<nat>)
    ensures vercel != "" ==> !StartsWith(GetBaseUrl(Server(Some(vercel), port)), "http://")
    ensures GetBaseUrl(Server(None, None)) == "http://localhost:3000"
  {
    if vercel != "" {
      var r := GetBaseUrl(Server(Some(vercel), port));
      assert r[4] == 's';
    }
    assert Decimal(300) == "300" by {
      assert Decimal(3) == "3";
      assert Decimal(30) == Decimal(3) + [DigitChar(0)];
    }
  }

  /** Request headers: name to value. */
  type Headers = map<string, string>

  const SourceHeader := "x-orpc-source"

  /**
   * `getHeaders`: in the browser only the source tag "nextjs-react"; on the server every
   * incoming header, copied one at a time, with the source tag then set to "rsc".
   */
  method GetHeaders(rt: Runtime, incoming: Headers) returns (h: Headers)
    ensures rt.Browser? ==> h == map[SourceHeader := "nextjs-react"]
    ensures rt.Server? ==>
      (forall k :: k in h <==> k in incoming || k == SourceHeader)
      && h[SourceHeader] == "rsc"
      && (forall k :: k in incoming && k != SourceHeader ==> h[k] == incoming[k])
  {
    h := map[];
    if rt.Browser? {
      h := h[SourceHeader := "nextjs-react"];
      return;
    }
    var pending := incoming.Keys;
    while pending != {}
      invariant pending <= incoming.Keys
      invariant forall k :: k in h <==> k in incoming && k !in pending
      invariant forall k :: k in h ==> h[k] == incoming[k]
      decreases |pending|
    {
      var key :| key in pending;
      h := h[key := incoming[key]];
      pending := pending - {key};
    }
    h := h[SourceHeader := "rsc"];
  }
}
