/**
 * RemotePublicKeyLocator: the kid -> public key cache of the realm's signing
 * keys, refreshed from the realm's certificate endpoint under a rate limit.
 *
 * The source guards getPublicKey's refresh and reset with one lock; here each
 * method body is one atomic step. The two clock readings of getPublicKey, the
 * one of reset, and the HTTP GET (a function of the URL) are parameters.
 */
module KeyLocator {
  import opened Common
  import opened Jwks
  import UrlHelper

  /** Java's int: the type of the clock readings, lastRequestTime and the two constants. */
  type Int32 = x: int | -0x8000_0000 <= x < 0x8000_0000

  /** Java's int addition: the exact sum when it fits, otherwise the sum wrapped by 2^32. */
  function AddInt32(a: Int32, b: Int32): (r: Int32)
    ensures -0x8000_0000 <= a + b < 0x8000_0000 ==> r == a + b
    ensures a + b >= 0x8000_0000 ==> r == a + b - 0x1_0000_0000
    ensures a + b < -0x8000_0000 ==> r == a + b + 0x1_0000_0000
  {
    (a + b + 0x8000_0000) % 0x1_0000_0000 - 0x8000_0000
  }

  /** PUBLIC_KEY_CACHE_TTL: one day, in seconds. */
  const PUBLIC_KEY_CACHE_TTL: Int32 := 86400
  /** MIN_TIME_BETWEEN_REQUESTS, in seconds. */
  const MIN_TIME_BETWEEN_REQUESTS: Int32 := 10

  /**
   * What restTemplate.getForEntity yields: a RestClientException, a response
   * without body, a body whose "keys" member is missing or null (getKeys()
   * returns null), or a key set.
   */
  datatype FetchOutcome = FetchFailed | NullBody | NoKeys | KeySet(keys: seq<Jwk>)

  /** The HTTP GET, as a function of the URL requested. */
  type Fetch = string -> FetchOutcome

  /** What getPublicKey does: return a key or null, or let an exception of sendRequest escape. */
  datatype LookupOutcome = Returned(key: Option<PublicKey>) | Thrown

  /** The URL sendRequest fetches: getCertificateUrl in io.github, plain concatenation in com.odradek. */
  function CertificateUrlFor(pkg: Package, properties: KeycloakProperties): (url: string)
    ensures properties.serverUrl <= url
    ensures pkg == IoGithub ==> url == UrlHelper.CertificateUrl(properties.serverUrl, properties.realm)
    ensures pkg == ComOdradek ==>
      url == UrlHelper.ConcatRealmUrl(properties.serverUrl, properties.realm) + UrlHelper.CERTS_PATH
  {
    match pkg
    case IoGithub => UrlHelper.CertificateUrl(properties.serverUrl, properties.realm)
    case ComOdradek => properties.serverUrl + "/realms/" + properties.realm + "/protocol/openid-connect/certs"
  }

  /**
   * The fetched key sets this model covers: when the signature-use wrappers
   * parse, their kids are non-null and distinct (otherwise Collectors.toMap
   * or ConcurrentHashMap.putAll throw).
   */
  predicate WellFormedFetch(outcome: FetchOutcome, parser: KeyParser)
  {
    outcome.KeySet? && WrappersForUse(outcome.keys, Sig, parser).Some? ==> SigKeysDefined(outcome.keys, parser)
  }

  /**
   * Whether sendRequest lets an exception escape: only RestClientException is
   * caught. A missing body is returned from early in io.github but handed on
   * in com.odradek; a missing "keys" list, and key material toPublicKey
   * cannot decode, throw in both.
   */
  predicate SendRequestThrows(pkg: Package, outcome: FetchOutcome, parser: KeyParser)
  {
    match outcome
    case FetchFailed => false
    case NullBody => pkg == ComOdradek
    case NoKeys => true
    case KeySet(keys) => WrappersForUse(keys, Sig, parser).None?
  }

  /**
   * The cache after sendRequest: a key set that parses replaces it by its
   * signature keys (clear, then putAll); anything else, including every
   * exception (all of them come before clear), leaves it as it was.
   */
  function Refreshed(current: map<string, PublicKey>, outcome: FetchOutcome, parser: KeyParser): (next: map<string, PublicKey>)
    requires WellFormedFetch(outcome, parser)
    ensures outcome.KeySet? && WrappersForUse(outcome.keys, Sig, parser).Some? ==>
      && next == SigKeys(outcome.keys, parser)
      && forall kid | kid in next :: exists j | j in outcome.keys :: j.kid == Some(kid) && Qualifies(j, Sig, parser)
    ensures !(outcome.KeySet? && WrappersForUse(outcome.keys, Sig, parser).Some?) ==> next == current
  {
    if outcome.KeySet? && WrappersForUse(outcome.keys, Sig, parser).Some? then SigKeys(outcome.keys, parser)
    else current
  }

  /** A sendRequest that throws leaves the cache as it was. */
  lemma ThrowKeepsCache(pkg: Package, current: map<string, PublicKey>, outcome: FetchOutcome, parser: KeyParser)
    requires WellFormedFetch(outcome, parser) && SendRequestThrows(pkg, outcome, parser)
    ensures Refreshed(current, outcome, parser) == current
  {
  }

  /** A successful fetch leaves no entry of the old cache behind unless the new key set has it too. */
  lemma {:induction false} NoStaleEntries(current: map<string, PublicKey>, keys: seq<Jwk>, parser: KeyParser, kid: string)
    requires SigKeysDefined(keys, parser)
    requires forall j | j in keys :: j.kid != Some(kid)
    ensures kid !in Refreshed(current, KeySet(keys), parser)
  {
  }

  class RemotePublicKeyLocator {
    const pkg: Package
    const properties: KeycloakProperties
    const parser: KeyParser
    /** currentKeys */
    var currentKeys: map<string, PublicKey>
    /** lastRequestTime, in seconds */
    var lastRequestTime: Int32
    /**
     * One clock reading per fetch, oldest first: the value lastRequestTime
     * takes if that fetch completes (getPublicKey's reading before the fetch,
     * reset's reading after it).
     */
    ghost var fetchLog: seq<Int32>

    /** The URL this locator fetches. */
    function Url(): string
    {
      CertificateUrlFor(pkg, properties)
    }

    constructor (pkg: Package, properties: KeycloakProperties, parser: KeyParser)
      ensures this.pkg == pkg && this.properties == properties && this.parser == parser
      ensures currentKeys == map[] && lastRequestTime == 0 && fetchLog == []
    {
      this.pkg := pkg;
      this.properties := properties;
      this.parser := parser;
      currentKeys := map[];
      lastRequestTime := 0;
      fetchLog := [];
    }

    /**
     * lookupCachedKey: the cached key, only while lastRequestTime + ttl (a
     * Java int sum, which wraps) exceeds currentTime, and for a non-null kid.
     */
    function LookupCachedKey(ttl: Int32, currentTime: Int32, kid: Option<string>): (r: Option<PublicKey>)
      reads this
      ensures r.Some? <==> AddInt32(lastRequestTime, ttl) > currentTime && kid.Some? && kid.value in currentKeys
      ensures r.Some? ==> r.value == currentKeys[kid.value]
      ensures lastRequestTime + ttl < 0x8000_0000 && ttl >= 0 ==>
        (r.Some? <==> lastRequestTime + ttl > currentTime && kid.Some? && kid.value in currentKeys)
      ensures kid.None? ==> r.None?
    {
      if AddInt32(lastRequestTime, ttl) > currentTime && kid.Some? then
        if kid.value in currentKeys then Some(currentKeys[kid.value]) else None
      else None
    }

    /**
     * sendRequest: fetch the key set and replace the cache; keep it when the
     * fetch fails, and when an exception escapes.
     */
    method SendRequest(fetch: Fetch) returns (thrown: bool)
      requires WellFormedFetch(fetch(Url()), parser)
      modifies this`currentKeys
      ensures thrown == SendRequestThrows(pkg, fetch(Url()), parser)
      ensures currentKeys == Refreshed(old(currentKeys), fetch(Url()), parser)
    {
      var response := fetch(Url());
      match response {
        case FetchFailed =>
          // RestClientException: logged
          thrown := false;
        case NullBody =>
          // io.github returns early; com.odradek hands null to getKeysForUse
          thrown := pkg == ComOdradek;
        case NoKeys =>
          // the for-each over getKeys() meets null
          thrown := true;
        case KeySet(keys) =>
          var wrappers := GetKeyWrappersForUse(keys, Sig, parser);
          if wrappers.None? {
            // toPublicKey threw
            thrown := true;
          } else {
            var publicKeys := ToKeyMap(wrappers.value);
            currentKeys := map[];
            currentKeys := currentKeys + publicKeys;
            thrown := false;
          }
      }
    }

    /**
     * What getPublicKey(kid) does, with the clock reading now0 of the fast
     * path and now1 of the locked section: the state before is old, the
     * state after is the current one, and r is the outcome.
     */
    twostate predicate LookedUp(kid: Option<string>, now0: Int32, now1: Int32, fetch: Fetch, r: LookupOutcome)
      requires WellFormedFetch(fetch(Url()), parser)
      reads this
    {
      var cached := old(LookupCachedKey(PUBLIC_KEY_CACHE_TTL, now0, kid));
      if cached.Some? then
        // a hit on the fast path: no fetch, no change
        r == Returned(cached) && unchanged(this)
      else if now1 > AddInt32(old(lastRequestTime), MIN_TIME_BETWEEN_REQUESTS) then
        // a miss outside the window: one fetch; lastRequestTime moves only if it completes
        && fetchLog == old(fetchLog) + [now1]
        && currentKeys == Refreshed(old(currentKeys), fetch(Url()), parser)
        && if SendRequestThrows(pkg, fetch(Url()), parser) then
             r == Thrown && lastRequestTime == old(lastRequestTime)
           else
             lastRequestTime == now1 && r == Returned(LookupCachedKey(PUBLIC_KEY_CACHE_TTL, now1, kid))
      else
        // a miss inside the window: no fetch, no change, the re-lookup at now1
        && unchanged(this)
        && r == Returned(LookupCachedKey(PUBLIC_KEY_CACHE_TTL, now1, kid))
    }

    /**
     * getPublicKey: the fast path at the first clock reading now0; on a miss,
     * the locked section at the second reading now1, which fetches only when
     * now1 > lastRequestTime + MIN_TIME_BETWEEN_REQUESTS (a Java int sum).
     */
    method GetPublicKey(kid: Option<string>, now0: Int32, now1: Int32, fetch: Fetch) returns (r: LookupOutcome)
      requires WellFormedFetch(fetch(Url()), parser)
      modifies this`currentKeys, this`lastRequestTime, this`fetchLog
      ensures LookedUp(kid, now0, now1, fetch, r)
      // at most one fetch, and only outside the window
      ensures || fetchLog == old(fetchLog)
              || (fetchLog == old(fetchLog) + [now1] && now1 > AddInt32(old(lastRequestTime), MIN_TIME_BETWEEN_REQUESTS))
      // an exception comes only from a fetch that throws
      ensures r.Thrown? ==> fetchLog == old(fetchLog) + [now1] && SendRequestThrows(pkg, fetch(Url()), parser)
    {
      var publicKey := LookupCachedKey(PUBLIC_KEY_CACHE_TTL, now0, kid);
      if publicKey.Some? {
        return Returned(publicKey);
      }
      // synchronized (this)
      if now1 > AddInt32(lastRequestTime, MIN_TIME_BETWEEN_REQUESTS) {
        var thrown := SendRequest(fetch);
        fetchLog := fetchLog + [now1];
        if thrown {
          return Thrown;
        }
        lastRequestTime := now1;
      }
      r := Returned(LookupCachedKey(PUBLIC_KEY_CACHE_TTL, now1, kid));
    }

    /** reset: fetch unconditionally, then set lastRequestTime to the clock reading now taken after the fetch. */
    method Reset(now: Int32, fetch: Fetch) returns (thrown: bool)
      requires WellFormedFetch(fetch(Url()), parser)
      modifies this`currentKeys, this`lastRequestTime, this`fetchLog
      ensures fetchLog == old(fetchLog) + [now]
      ensures currentKeys == Refreshed(old(currentKeys), fetch(Url()), parser)
      ensures thrown == SendRequestThrows(pkg, fetch(Url()), parser)
      ensures lastRequestTime == if thrown then old(lastRequestTime) else now
    {
      // synchronized (this)
      thrown := SendRequest(fetch);
      fetchLog := fetchLog + [now];
      if thrown {
        return;
      }
      lastRequestTime := now;
    }
  }

  /**
   * In the last day before the int clock overflows, lastRequestTime + TTL
   * wraps to a negative number, so no lookup at a non-negative time hits the cache.
   */
  lemma CacheStaleAfterWrap(locator: RemotePublicKeyLocator, now: Int32, kid: Option<string>)
    requires locator.lastRequestTime + PUBLIC_KEY_CACHE_TTL >= 0x8000_0000
    requires now >= 0
    ensures locator.LookupCachedKey(PUBLIC_KEY_CACHE_TTL, now, kid).None?
  {
  }

  /**
   * Two lookups in a row: if both fetch and the first completes, the second
   * fetch comes more than 10 seconds (in int arithmetic) after the first.
   */
  method TwoLookups(locator: RemotePublicKeyLocator, kid1: Option<string>, kid2: Option<string>,
                    t0: Int32, t1: Int32, t2: Int32, t3: Int32, fetch1: Fetch, fetch2: Fetch)
    returns (r1: LookupOutcome, r2: LookupOutcome)
    requires WellFormedFetch(fetch1(locator.Url()), locator.parser)
    requires WellFormedFetch(fetch2(locator.Url()), locator.parser)
    modifies locator
    ensures var n := |old(locator.fetchLog)|;
      |locator.fetchLog| == n + 2 && r1.Returned? ==>
        locator.fetchLog[n + 1] > AddInt32(locator.fetchLog[n], MIN_TIME_BETWEEN_REQUESTS)
    ensures var n := |old(locator.fetchLog)|;
      |locator.fetchLog| == n + 2 && r1.Returned? && locator.fetchLog[n] + MIN_TIME_BETWEEN_REQUESTS < 0x8000_0000 ==>
        locator.fetchLog[n + 1] > locator.fetchLog[n] + MIN_TIME_BETWEEN_REQUESTS
  {
    r1 := locator.GetPublicKey(kid1, t0, t1, fetch1);
    r2 := locator.GetPublicKey(kid2, t2, t3, fetch2);
  }

  /**
   * A fetch that throws leaves lastRequestTime behind, so the next miss at the
   * same clock reading fetches again: the rate limit does not hold.
   */
  method ThrowingFetchDefeatsRateLimit(locator: RemotePublicKeyLocator, kid: Option<string>, t: Int32, fetch: Fetch)
    returns (r1: LookupOutcome, r2: LookupOutcome)
    requires WellFormedFetch(fetch(locator.Url()), locator.parser)
    requires SendRequestThrows(locator.pkg, fetch(locator.Url()), locator.parser)
    requires t > AddInt32(locator.lastRequestTime, MIN_TIME_BETWEEN_REQUESTS)
    requires locator.LookupCachedKey(PUBLIC_KEY_CACHE_TTL, t, kid).None?
    modifies locator
    ensures r1 == Thrown && r2 == Thrown
    ensures locator.fetchLog == old(locator.fetchLog) + [t, t]
    ensures locator.lastRequestTime == old(locator.lastRequestTime) && locator.currentKeys == old(locator.currentKeys)
  {
    r1 := locator.GetPublicKey(kid, t, t, fetch);
    r2 := locator.GetPublicKey(kid, t, t, fetch);
  }

  /**
   * Five seconds after a fetch at 2147483640, lastRequestTime + 10 has
   * wrapped to a negative number and a miss fetches again.
   */
  method WrapDefeatsRateLimit(locator: RemotePublicKeyLocator, kid: Option<string>, fetch: Fetch)
    returns (r: LookupOutcome)
    requires WellFormedFetch(fetch(locator.Url()), locator.parser)
    requires locator.lastRequestTime == 2147483640
    modifies locator
    ensures locator.fetchLog == old(locator.fetchLog) + [2147483645]
  {
    r := locator.GetPublicKey(kid, 2147483645, 2147483645, fetch);
  }
}
