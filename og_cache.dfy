/**
 * The Open Graph image route (website/app/api/get-og-image/route.tsx): a
 * module-level cache of one screenshot and the time it was taken, served
 * while younger than 30 minutes and refreshed from the screenshot service
 * otherwise. The screenshot call is an oracle that either yields the image
 * bytes or fails; the clock is a parameter.
 */
module OgCache {
  import opened Wrappers

  type Bytes = seq<bv8>

  /** 30 * 60 * 1000 ms */
  const CacheDuration: int := 30 * 60 * 1000

  /** The outcome of client.take(options) and reading its bytes: any exception in them is a failure. */
  datatype Fetch = Fetched(bytes: Bytes) | FetchFailed

  /** A response: an image with its X-Cache header, or the plain-text failure. */
  datatype OgResponse =
    | ImageResponse(bytes: Bytes, xCache: string)
    | ErrorResponse(status: int, text: string)

  /** The value of the `cache` record. */
  datatype CacheState = CacheState(image: Option<Bytes>, timestamp: int)

  const Initial := CacheState(None, 0)

  /** `cache.image && now - cache.timestamp < CACHE_DURATION`; a Buffer is truthy even when empty. */
  predicate Fresh(c: CacheState, now: int) {
    c.image.Some? && now - c.timestamp < CacheDuration
  }

  /**
   * `${process.env.NEXT_PUBLIC_VERCEL_URL}/og-image` || 'http://localhost:3000/og-image'.
   * An unset variable interpolates as "undefined".
   */
  function TargetUrl(vercelUrl: Option<string>): (url: string)
    ensures |url| >= 9 && url[|url| - 9..] == "/og-image"
    ensures vercelUrl.Some? ==> |vercelUrl.value| + 9 == |url| && url[..|vercelUrl.value|] == vercelUrl.value
    ensures vercelUrl.None? ==> url[..|url| - 9] == "undefined"
  {
    var interpolated := (if vercelUrl.Some? then vercelUrl.value else "undefined") + "/og-image";
    if interpolated != "" then interpolated else "http://localhost:3000/og-image"
  }

  /** The template literal is never empty, so the localhost fallback is never taken. */
  lemma LocalhostFallbackIsDead(vercelUrl: Option<string>)
    ensures TargetUrl(vercelUrl) == (if vercelUrl.Some? then vercelUrl.value else "undefined") + "/og-image"
    ensures TargetUrl(None) == "undefined/og-image"
  {
    var prefix := if vercelUrl.Some? then vercelUrl.value else "undefined";
    assert |prefix + "/og-image"| > 0;
  }

  /**
   * GET. A fresh cached image is answered as a HIT and the cache is left
   * alone. Otherwise the screenshot is fetched: on success it is answered
   * as a MISS and stored with the time the request started; on failure the
   * answer is 500 and the cache is left alone.
   */
  function Respond(c: CacheState, now: int, fetched: Fetch): (r: (CacheState, OgResponse))
    ensures r.1.ImageResponse? && r.1.xCache == "HIT" <==> Fresh(c, now)
    ensures Fresh(c, now) ==> r == (c, ImageResponse(c.image.value, "HIT"))
    ensures !Fresh(c, now) && fetched.Fetched? ==>
              r == (CacheState(Some(fetched.bytes), now), ImageResponse(fetched.bytes, "MISS"))
    ensures !Fresh(c, now) && fetched.FetchFailed? ==>
              r == (c, ErrorResponse(500, "Failed to generate OG image."))
    ensures r.0 == c || r.0 == CacheState(Some(fetched.bytes), now)
  {
    if Fresh(c, now) then (c, ImageResponse(c.image.value, "HIT"))
    else match fetched
      case Fetched(bytes) => (CacheState(Some(bytes), now), ImageResponse(bytes, "MISS"))
      case FetchFailed => (c, ErrorResponse(500, "Failed to generate OG image."))
  }

  /** An image exactly 30 minutes old is stale, and the initial empty cache always misses. */
  lemma FreshnessBoundary(bytes: Bytes, t: int, now: int, fetched: Fetch)
    ensures !Fresh(CacheState(Some(bytes), t), t + 1800000)
    ensures Fresh(CacheState(Some(bytes), t), t + 1799999)
    ensures !Fresh(Initial, now)
    ensures Respond(Initial, now, fetched).1.ImageResponse? ==> Respond(Initial, now, fetched).1.xCache == "MISS"
  {
  }

  /**
   * After a successful refresh, every request within the next 30 minutes is
   * a HIT on the same bytes, whatever the screenshot service would do.
   */
  lemma {:induction false} RefreshThenHit(c: CacheState, now: int, bytes: Bytes, later: int, fetched: Fetch)
    requires !Fresh(c, now)
    requires now <= later < now + CacheDuration
    ensures var c1 := Respond(c, now, Fetched(bytes)).0;
            Respond(c1, later, fetched) == (c1, ImageResponse(bytes, "HIT"))
  {
    var c1 := Respond(c, now, Fetched(bytes)).0;
    assert c1 == CacheState(Some(bytes), now);
    assert Fresh(c1, later);
  }

  /** The route module: its `cache` record as fields, GET as a method. */
  class Route {
    var image: Option<Bytes>
    var timestamp: int

    function Cache(): CacheState
      reads this
    {
      CacheState(image, timestamp)
    }

    /** `{ image: null, timestamp: 0 }` */
    constructor ()
      ensures Cache() == Initial
    {
      image := None;
      timestamp := 0;
    }

    /**
     * The screenshot service's answer for a URL is `take(url)`. `asked` is
     * the URL the service was asked for: none on a HIT, the target URL on
     * every miss.
     */
    method Get(now: int, vercelUrl: Option<string>, take: string -> Fetch) returns (resp: OgResponse, asked: Option<string>)
      modifies this
      ensures (Cache(), resp) == Respond(old(Cache()), now, take(TargetUrl(vercelUrl)))
      ensures asked.Some? <==> !Fresh(old(Cache()), now)
      ensures asked.Some? ==> asked.value == TargetUrl(vercelUrl)
    {
      if image.Some? && now - timestamp < CacheDuration {
        return ImageResponse(image.value, "HIT"), None;
      }
      var baseUrl := TargetUrl(vercelUrl);
      asked := Some(baseUrl);
      var fetched := take(baseUrl);
      if fetched.FetchFailed? {
        resp := ErrorResponse(500, "Failed to generate OG image.");
        return;
      }
      var buffer := fetched.bytes;
      image := Some(buffer);
      timestamp := now;
      resp := ImageResponse(buffer, "MISS");
    }
  }
}
