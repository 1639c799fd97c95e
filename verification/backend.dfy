/**
 * The RPC forwarding layer from the edge server to its backend
 * (socketserver/server/backend.go).  A BackendInfo holds the endpoint
 * URLs, the response cache and the health map of last-success times; its
 * methods build a form, have it sealed, POST it, classify the reply and
 * update the cache and the health map.
 *
 * Each operation is first given as a pure step function from the old
 * cache and health map (a Snapshot) to the result and the new Snapshot;
 * the class methods update the two maps in place and are proved to follow
 * those functions.  The sealer, the HTTP client and the JSON decoder are
 * parameters of each call, and so is the current time.
 */
module Backend {
  import opened Text
  import opened StrConv
  import opened Wire
  import opened Classifier

  const PathAnnounceStartup := "/startup"
  const PathAddTopic := "/topics"
  const PathAggStats := "/stats"
  const PathOtherCommand := "/cmd/"

  /** A point in time, in nanoseconds since the Unix epoch (time.Time.UnixNano). */
  type Instant = int

  const Epoch: Instant := 0

  /** time.Second, in nanoseconds. */
  const Second: int := 1_000_000_000

  /** The response cache's default lifetime, the first argument of cache.New. */
  const CacheDefaultLifetime: int := 60 * Second

  /**
   * A cached response body and the last instant at which it may be served;
   * None for an entry that never expires (go-cache's expiration 0).
   */
  datatype CacheEntry = CacheEntry(response: string, expiry: Option<Instant>)

  type Cache = map<string, CacheEntry>

  /** Health bucket name to the instant of its last 2xx reply. */
  type Health = map<string, Instant>

  /** The mutable state of a BackendInfo. */
  datatype Snapshot = Snapshot(cache: Cache, health: Health)

  /** What one call returns, and the state it leaves behind. */
  datatype Step<+T> = Step(result: T, after: Snapshot)

  /** The part of the configuration file the backend uses. */
  datatype Config = Config(serverID: int, backendURL: string)

  /** The four buckets every health map starts with. */
  predicate HasFixedBuckets(health: Health)
  {
    && PathAnnounceStartup in health
    && PathAddTopic in health
    && PathAggStats in health
    && PathOtherCommand in health
  }

  /** getCacheKey: the command and its data joined by '/'. */
  function CacheKey(remoteCommand: string, data: string): string
  {
    remoteCommand + "/" + data
  }

  /**
   * go-cache's Get: the entry's response unless it has expired.  An entry
   * expires once the current instant is past its expiry.
   */
  function Lookup(cache: Cache, key: string, now: Instant): Option<string>
  {
    if key in cache && (cache[key].expiry.None? || now <= cache[key].expiry.value) then
      Some(cache[key].response)
    else None
  }

  /** time.Duration(secs) * time.Second: an int64 product, wrapping on overflow. */
  function HintDuration(secs: int): int
  {
    WrapInt64(secs * Second)
  }

  /**
   * go-cache's Set with lifetime `d`: a zero lifetime means the cache's
   * default one; a positive lifetime stores the expiration
   * `now.Add(lifetime).UnixNano()`, an int64 that wraps past the year 2262;
   * any other lifetime stores 0.  Get treats an expiration that is not
   * positive as none, so such an entry never expires.
   */
  function ExpiryAfter(now: Instant, d: int): Option<Instant>
  {
    var lifetime := if d == 0 then CacheDefaultLifetime else d;
    if lifetime > 0 then
      var expiration := WrapInt64(now + lifetime);
      if expiration > 0 then Some(expiration) else None
    else None
  }

  /** The health bucket of one command, which is also its path under the base URL. */
  function CommandBucket(remoteCommand: string): string
  {
    PathOtherCommand + remoteCommand
  }

  /** The fields of a command request, before sealing. */
  function CommandForm(data: string, auth: AuthInfo): Form
  {
    map[
      "clientData" := [data],
      "username" := [auth.twitchUsername],
      "authenticated" := [if auth.usernameValidated then "1" else "0"]]
  }

  /** The fields of a topic notice, before sealing. */
  function TopicForm(topic: string, added: bool): Form
  {
    map["channels" := [topic], "added" := [if added then "t" else "f"]]
  }

  /** The text ErrBackendNotOK carries when the body of a non-2xx reply could not be read. */
  const ReadFailurePrefix := "(error reading non-2xx response): "

  /** A successful command is recorded at `now` in the shared bucket and in its own. */
  function MarkCommandSuccess(health: Health, remoteCommand: string, now: Instant): Health
  {
    health[PathOtherCommand := now][CommandBucket(remoteCommand) := now]
  }

  /** SendRemoteCommand, as a function of the old state and the collaborators' answers. */
  function RemoteCommand(
    s: Snapshot, baseURL: string, remoteCommand: string, data: string, auth: AuthInfo,
    now: Instant, seal: Sealer, post: Poster, decode: Decoder): Step<Result<string>>
  {
    match seal(CommandForm(data, auth))
    case SealFailed(e) => Step(Err(SealError(e)), s)
    case Sealed(sealedForm) =>
      match post(baseURL + CommandBucket(remoteCommand), sealedForm)
      case TransportFailed(e) => Step(Err(TransportError(e)), s)
      case Replied(resp) =>
        match resp.body
        case ReadFailed(e) => Step(Err(BodyReadError(e)), s)
        case Read(responseStr) =>
          if resp.status == 401 then
            Step(Err(AuthorizationNeeded), s)
          else if !Is2xx(resp.status) then
            Step(Err(ClassifyFailure(resp.status, resp.contentType, responseStr, decode)), s)
          else if resp.cacheHint == "" then
            Step(Ok(responseStr), Snapshot(s.cache, MarkCommandSuccess(s.health, remoteCommand, now)))
          else
            match ParseInt64(resp.cacheHint)
            case Failed(e) => Step(Err(NonIntegerCacheDuration(resp.cacheHint, e)), s)
            case Parsed(secs) =>
              var entry := CacheEntry(responseStr, ExpiryAfter(now, HintDuration(secs)));
              Step(Ok(responseStr),
                   Snapshot(s.cache[CacheKey(remoteCommand, data) := entry],
                            MarkCommandSuccess(s.health, remoteCommand, now)))
  }

  /** SendRemoteCommandCached: a live cache entry short-circuits the call. */
  function RemoteCommandCached(
    s: Snapshot, baseURL: string, remoteCommand: string, data: string, auth: AuthInfo,
    now: Instant, seal: Sealer, post: Poster, decode: Decoder): Step<Result<string>>
  {
    match Lookup(s.cache, CacheKey(remoteCommand, data), now)
    case Some(cached) => Step(Ok(cached), s)
    case None => RemoteCommand(s, baseURL, remoteCommand, data, auth, now, seal, post, decode)
  }

  /** SendAggregatedData, posting `form` to `statsURL`. */
  function AggregatedData(
    s: Snapshot, statsURL: string, form: Form, now: Instant, seal: Sealer, post: Poster): Step<Outcome>
  {
    match seal(form)
    case SealFailed(e) => Step(Fail(SealError(e)), s)
    case Sealed(sealedForm) =>
      match post(statsURL, sealedForm)
      case TransportFailed(e) => Step(Fail(TransportError(e)), s)
      case Replied(resp) =>
        if !Is2xx(resp.status) then
          Step(Fail(HttpError(resp.status)), s)
        else
          var closed := match resp.closeError case None => Pass case Some(e) => Fail(CloseError(e));
          Step(closed, Snapshot(s.cache, s.health[PathAggStats := now]))
  }

  /** sendTopicNotice, posting the topic form to `topicURL`. */
  function TopicNotice(
    s: Snapshot, topicURL: string, topic: string, added: bool, now: Instant,
    seal: Sealer, post: Poster): Step<Outcome>
  {
    match seal(TopicForm(topic, added))
    case SealFailed(e) => Step(Fail(SealError(e)), s)
    case Sealed(sealedForm) =>
      match post(topicURL, sealedForm)
      case TransportFailed(e) => Step(Fail(TransportError(e)), s)
      case Replied(resp) =>
        if !Is2xx(resp.status) then
          var response := match resp.body
            case Read(text) => text
            case ReadFailed(e) => ReadFailurePrefix + e;
          Step(Fail(BackendNotOK(resp.status, response)), s)
        else
          Step(Pass, Snapshot(s.cache, s.health[PathAddTopic := now]))
  }

  /** SendNewTopicNotice: the first subscription to `topic`. */
  function NewTopicNotice(
    s: Snapshot, topicURL: string, topic: string, now: Instant, seal: Sealer, post: Poster): Step<Outcome>
  {
    TopicNotice(s, topicURL, topic, true, now, seal, post)
  }

  /** SendCleanupTopicsNotice: `topics` lost their last subscriber. */
  function CleanupTopicsNotice(
    s: Snapshot, topicURL: string, topics: seq<string>, now: Instant, seal: Sealer, post: Poster): Step<Outcome>
  {
    TopicNotice(s, topicURL, Join(topics, ","), false, now, seal, post)
  }

  /** backendInfo: the endpoint URLs, the response cache and the health map. */
  class BackendInfo {
    const serverID: int
    const baseURL: string
    const announceStartupURL: string
    const addTopicURL: string
    const postStatisticsURL: string

    var responseCache: Cache
    var lastSuccess: Health

    ghost predicate Valid()
      reads this
    {
      HasFixedBuckets(lastSuccess)
    }

    function State(): Snapshot
      reads this
    {
      Snapshot(responseCache, lastSuccess)
    }

    /** setupBackend: the URLs from the base URL, an empty cache, the fixed buckets at the epoch. */
    constructor (config: Config)
      ensures Valid()
      ensures serverID == config.serverID && baseURL == config.backendURL
      ensures announceStartupURL == config.backendURL + PathAnnounceStartup
      ensures addTopicURL == config.backendURL + PathAddTopic
      ensures postStatisticsURL == config.backendURL + PathAggStats
      ensures responseCache == map[]
      ensures lastSuccess.Keys == {PathAnnounceStartup, PathAddTopic, PathAggStats, PathOtherCommand}
      ensures forall bucket :: bucket in lastSuccess ==> lastSuccess[bucket] == Epoch
    {
      serverID := config.serverID;
      baseURL := config.backendURL;
      responseCache := map[];
      announceStartupURL := config.backendURL + PathAnnounceStartup;
      addTopicURL := config.backendURL + PathAddTopic;
      postStatisticsURL := config.backendURL + PathAggStats;
      var epochTime := Epoch;
      lastSuccess := map[
        PathAnnounceStartup := epochTime,
        PathAddTopic := epochTime,
        PathAggStats := epochTime,
        PathOtherCommand := epochTime];
    }

    method SendRemoteCommandCached(
      remoteCommand: string, data: string, auth: AuthInfo, now: Instant,
      seal: Sealer, post: Poster, decode: Decoder) returns (r: Result<string>)
      requires Valid()
      modifies this
      ensures Valid()
      ensures Step(r, State()) ==
        RemoteCommandCached(old(State()), baseURL, remoteCommand, data, auth, now, seal, post, decode)
    {
      var cacheKey := CacheKey(remoteCommand, data);
      var cached := Lookup(responseCache, cacheKey, now);
      if cached.Some? {
        return Ok(cached.value);
      }
      r := SendRemoteCommand(remoteCommand, data, auth, now, seal, post, decode);
    }

    method SendRemoteCommand(
      remoteCommand: string, data: string, auth: AuthInfo, now: Instant,
      seal: Sealer, post: Poster, decode: Decoder) returns (r: Result<string>)
      requires Valid()
      modifies this
      ensures Valid()
      ensures Step(r, State()) ==
        RemoteCommand(old(State()), baseURL, remoteCommand, data, auth, now, seal, post, decode)
    {
      var destURL := baseURL + "/cmd/" + remoteCommand;
      var healthBucket := "/cmd/" + remoteCommand;
      assert destURL == baseURL + CommandBucket(remoteCommand);
      var formData := CommandForm(data, auth);

      var sealing := seal(formData);
      if sealing.SealFailed? {
        return Err(SealError(sealing.reason));
      }
      var posted := post(destURL, sealing.form);
      if posted.TransportFailed? {
        return Err(TransportError(posted.reason));
      }
      var resp := posted.reply;
      if resp.body.ReadFailed? {
        return Err(BodyReadError(resp.body.reason));
      }
      var responseStr := resp.body.text;

      if resp.status == 401 {
        return Err(AuthorizationNeeded);
      } else if resp.status < 200 || resp.status > 299 {
        if MediaType(resp.contentType) == JsonMediaType {
          match decode(responseStr) {
            case DecodeFailed(reason) =>
              assert JsonDecodeError(reason, responseStr) == ClassifyFailure(resp.status, resp.contentType, responseStr, decode);
              return Err(JsonDecodeError(reason, responseStr));
            case Decoded(jsonError) =>
              assert ForwardedFromBackend(jsonError) == ClassifyFailure(resp.status, resp.contentType, responseStr, decode);
              return Err(ForwardedFromBackend(jsonError));
          }
        }
        return Err(HttpError(resp.status));
      }

      if resp.cacheHint != "" {
        var durSecs := ParseInt64(resp.cacheHint);
        if durSecs.Failed? {
          return Err(NonIntegerCacheDuration(resp.cacheHint, durSecs.err));
        }
        var duration := HintDuration(durSecs.value);
        responseCache := responseCache[CacheKey(remoteCommand, data) := CacheEntry(responseStr, ExpiryAfter(now, duration))];
      }

      lastSuccess := lastSuccess[PathOtherCommand := now];
      lastSuccess := lastSuccess[healthBucket := now];
      return Ok(responseStr);
    }

    method SendAggregatedData(form: Form, now: Instant, seal: Sealer, post: Poster) returns (r: Outcome)
      requires Valid()
      modifies this
      ensures Valid()
      ensures Step(r, State()) == AggregatedData(old(State()), postStatisticsURL, form, now, seal, post)
    {
      var sealing := seal(form);
      if sealing.SealFailed? {
        return Fail(SealError(sealing.reason));
      }
      var posted := post(postStatisticsURL, sealing.form);
      if posted.TransportFailed? {
        return Fail(TransportError(posted.reason));
      }
      var resp := posted.reply;
      if resp.status < 200 || resp.status > 299 {
        return Fail(HttpError(resp.status));
      }

      lastSuccess := lastSuccess[PathAggStats := now];

      if resp.closeError.Some? {
        return Fail(CloseError(resp.closeError.value));
      }
      return Pass;
    }

    method SendNewTopicNotice(topic: string, now: Instant, seal: Sealer, post: Poster) returns (r: Outcome)
      requires Valid()
      modifies this
      ensures Valid()
      ensures Step(r, State()) == NewTopicNotice(old(State()), addTopicURL, topic, now, seal, post)
    {
      r := SendTopicNotice(topic, true, now, seal, post);
    }

    method SendCleanupTopicsNotice(topics: seq<string>, now: Instant, seal: Sealer, post: Poster) returns (r: Outcome)
      requires Valid()
      modifies this
      ensures Valid()
      ensures Step(r, State()) == CleanupTopicsNotice(old(State()), addTopicURL, topics, now, seal, post)
    {
      r := SendTopicNotice(Join(topics, ","), false, now, seal, post);
    }

    method SendTopicNotice(topic: string, added: bool, now: Instant, seal: Sealer, post: Poster) returns (r: Outcome)
      requires Valid()
      modifies this
      ensures Valid()
      ensures Step(r, State()) == TopicNotice(old(State()), addTopicURL, topic, added, now, seal, post)
    {
      var formData := TopicForm(topic, added);

      var sealing := seal(formData);
      if sealing.SealFailed? {
        return Fail(SealError(sealing.reason));
      }
      var posted := post(addTopicURL, sealing.form);
      if posted.TransportFailed? {
        return Fail(TransportError(posted.reason));
      }
      var resp := posted.reply;
      if resp.status < 200 || resp.status > 299 {
        if resp.body.ReadFailed? {
          return Fail(BackendNotOK(resp.status, ReadFailurePrefix + resp.body.reason));
        }
        return Fail(BackendNotOK(resp.status, resp.body.text));
      }

      lastSuccess := lastSuccess[PathAddTopic := now];
      return Pass;
    }
  }
}
