/**
 * What the dispatchers hand to the transport and get back from it, the checks that can stop a
 * dispatch, and the environment a dispatch reads.
 */
module Delivery {
  import opened Wrappers
  import opened Php
  import opened Helpers
  import opened Orders
  import opened Meta
  import opened Payload

  /** What `wp_remote_post` returns: a `WP_Error` with its message, or a reply. */
  datatype HttpResult = ConnErr(message: string) | Http(code: PhpInt, body: string)

  /** A 2xx status code. */
  predicate IsSuccess(code: int) {
    200 <= code < 300
  }

  /**
   * How the work after the checks ends, for an order whose payload can be built: an `Exception`
   * thrown by the order's getters while the payload is built (before anything is sent), or the
   * transport's result.
   */
  datatype Transport = Threw(message: string) | Returned(result: HttpResult)

  /** The `wp_remote_post` call: URL, headers (a PHP array keyed by name), timeout, SSL check and body. */
  datatype Request<P> = Request(url: string, headers: map<string, string>, timeout: int, sslVerify: bool, body: P)

  /** The checks that end a dispatch early, each returning before any marker is written. */
  datatype Gate = Disabled | NoEndpoint | OrderMissing | AlreadySent | NotPaid | RateLimited

  /** What one dispatch did. */
  datatype Attempt =
      /** a check stopped it */
    | Skipped(gate: Gate)
      /** an exception was caught and recorded */
    | Raised(message: string)
      /**
       * the order has no creation date: `get_date_created()` returned null and the method
       * called on it raised an Error, which `catch (Exception $e)` does not catch; the request
       * ended there and nothing more was written
       */
    | Fatal
      /** the sender refused before any request (no URL) */
    | Refused(message: string)
      /** a POST was made; `delivered` is the recorder's verdict */
    | Posted(request: Request<Payload>, delivered: bool)

  /** What a dispatch reads: the options, the orders, SHA-256, the site URLs and the clock. */
  datatype Env = Env(
    opts: Options,
    orders: OrderStore,
    sha: string -> Digest,
    site: Site,
    /** `time()`: UTC seconds. */
    now: int,
    /** The site's offset from UTC, in seconds. */
    tzOffset: int)

  /** `current_time('mysql')` read back as seconds: the site-local wall clock. */
  function Stamp(env: Env): int {
    env.now + env.tzOffset
  }

  /** The reply body as the markers keep it: `substr($body, 0, 500)`. */
  function Excerpt(body: string): (r: string)
    ensures |r| <= 500 && |r| <= |body| && r == body[..|r|]
    ensures |body| <= 500 ==> r == body
    ensures |body| >= 500 ==> |r| == 500
  {
    Truncate(body, 500)
  }

  /** The recorder's verdict and the markers it leaves. */
  datatype Recorded = Recorded(delivered: bool, markers: Markers)

  /** One dispatch: what it did and the markers it leaves. */
  datatype Run = Run(attempt: Attempt, markers: Markers)

  /** One firing of a dispatch hook: the environment at that moment and how the work ends. */
  datatype Event = Event(env: Env, outcome: Transport)

  /** What a sequence of dispatches of one order did in total. */
  datatype Tally = Tally(markers: Markers, posts: nat, deliveries: nat)

  /** A POST counts once; a delivered one also counts as a delivery. */
  function Count(t: Tally, a: Attempt): Tally {
    match a
    case Posted(_, delivered) => Tally(t.markers, t.posts + 1, t.deliveries + if delivered then 1 else 0)
    case _ => t
  }
}
