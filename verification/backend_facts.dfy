/**
 * What the backend operations guarantee: which outcome each kind of reply
 * leads to, which health buckets and cache entries change on which paths
 * (and that nothing else does), and how the cache and the cached command
 * path fit together.
 */
module BackendFacts {
  import opened Text
  import opened StrConv
  import opened Wire
  import opened Classifier
  import opened Backend

  /** The reply a call gets when sealing `form` and POSTing it to `url` both succeed. */
  function Exchange(form: Form, url: string, seal: Sealer, post: Poster): Option<Reply>
  {
    match seal(form)
    case SealFailed(_) => None
    case Sealed(sealedForm) =>
      match post(url, sealedForm)
      case TransportFailed(_) => None
      case Replied(resp) => Some(resp)
  }

  /** The reply a command call gets, if any. */
  function CommandReply(
    baseURL: string, remoteCommand: string, data: string, auth: AuthInfo,
    seal: Sealer, post: Poster): Option<Reply>
  {
    Exchange(CommandForm(data, auth), baseURL + CommandBucket(remoteCommand), seal, post)
  }

  /** `after` equals `before` on every bucket except those in `changed`. */
  ghost predicate SameElsewhere(before: Health, after: Health, changed: set<string>)
  {
    && (forall bucket :: bucket !in changed ==> (bucket in before <==> bucket in after))
    && (forall bucket :: bucket in before && bucket !in changed ==>
          bucket in after && after[bucket] == before[bucket])
  }

  // ---------------------------------------------------------------------
  // The cache key

  /**
   * For commands without a '/', the cache key determines the command and
   * the data; the user never enters it.
   */
  lemma CacheKeyInjective(c1: string, d1: string, c2: string, d2: string)
    requires '/' !in c1 && '/' !in c2
    requires CacheKey(c1, d1) == CacheKey(c2, d2)
    ensures c1 == c2 && d1 == d2
  {
    var k := CacheKey(c1, d1);
    assert k[..|c1|] == c1 && k[|c1|] == '/';
    assert CacheKey(c2, d2)[..|c2|] == c2 && CacheKey(c2, d2)[|c2|] == '/';
    IndexOfAt(k, '/', |c1|);
    IndexOfAt(CacheKey(c2, d2), '/', |c2|);
    assert d1 == k[|c1| + 1..];
    assert d2 == CacheKey(c2, d2)[|c2| + 1..];
  }

  /** A command containing '/' can share a cache key with a different command and data. */
  lemma CacheKeyAmbiguous()
    ensures CacheKey("a/b", "c") == CacheKey("a", "b/c")
  {
  }

  // ---------------------------------------------------------------------
  // SendRemoteCommandCached

  /**
   * On a live cache entry the cached response is returned and nothing
   * changes; the result is the same whoever asks and whatever the sealer,
   * the HTTP client and the decoder would have done, so none is consulted.
   */
  lemma CachedHitShortCircuits(
    s: Snapshot, baseURL: string, remoteCommand: string, data: string, now: Instant, cached: string,
    auth1: AuthInfo, seal1: Sealer, post1: Poster, decode1: Decoder,
    auth2: AuthInfo, seal2: Sealer, post2: Poster, decode2: Decoder)
    requires Lookup(s.cache, CacheKey(remoteCommand, data), now) == Some(cached)
    ensures RemoteCommandCached(s, baseURL, remoteCommand, data, auth1, now, seal1, post1, decode1)
         == Step(Ok(cached), s)
    ensures RemoteCommandCached(s, baseURL, remoteCommand, data, auth1, now, seal1, post1, decode1)
         == RemoteCommandCached(s, baseURL, remoteCommand, data, auth2, now, seal2, post2, decode2)
  {
  }

  /** Without a live entry the cached path is exactly SendRemoteCommand. */
  lemma CachedMissDelegates(
    s: Snapshot, baseURL: string, remoteCommand: string, data: string, auth: AuthInfo,
    now: Instant, seal: Sealer, post: Poster, decode: Decoder)
    requires Lookup(s.cache, CacheKey(remoteCommand, data), now).None?
    ensures RemoteCommandCached(s, baseURL, remoteCommand, data, auth, now, seal, post, decode)
         == RemoteCommand(s, baseURL, remoteCommand, data, auth, now, seal, post, decode)
  {
  }

  /**
   * A 2xx reply with `FFZ-Cache: n` is served from the cache, to any user
   * and without a request, for as long as go-cache keeps the entry: until
   * the expiry it derives from n, or forever when it gives none.  After
   * the expiry the cached path makes a new request.
   */
  lemma CachedUntilHintExpires(
    s: Snapshot, baseURL: string, remoteCommand: string, data: string,
    auth: AuthInfo, now: Instant, seal: Sealer, post: Poster, decode: Decoder,
    later: Instant, auth2: AuthInfo, seal2: Sealer, post2: Poster, decode2: Decoder,
    reply: Reply, body: string, secs: int)
    requires CommandReply(baseURL, remoteCommand, data, auth, seal, post) == Some(reply)
    requires Is2xx(reply.status) && reply.body == Read(body) && reply.cacheHint != ""
    requires ParseInt64(reply.cacheHint) == Parsed(secs)
    ensures var s1 := RemoteCommand(s, baseURL, remoteCommand, data, auth, now, seal, post, decode).after;
      var expiry := ExpiryAfter(now, HintDuration(secs));
      && (expiry.None? || later <= expiry.value ==>
            RemoteCommandCached(s1, baseURL, remoteCommand, data, auth2, later, seal2, post2, decode2)
            == Step(Ok(body), s1))
      && (expiry.Some? && expiry.value < later ==>
            RemoteCommandCached(s1, baseURL, remoteCommand, data, auth2, later, seal2, post2, decode2)
            == RemoteCommand(s1, baseURL, remoteCommand, data, auth2, later, seal2, post2, decode2))
  {
    var step := RemoteCommand(s, baseURL, remoteCommand, data, auth, now, seal, post, decode);
    assert step.result == Ok(body);
    assert step.after.cache[CacheKey(remoteCommand, data)]
        == CacheEntry(body, ExpiryAfter(now, HintDuration(secs)));
  }

  /**
   * How long an entry stored with hint `secs` lives: exactly `secs`
   * seconds for a positive hint while `now` plus that many nanoseconds
   * stays positive and fits in an int64; the cache's 60-second default for
   * 0; forever for a negative hint.  A positive hint that carries the
   * expiration past the largest int64 (about 7.4e9 seconds from the year
   * 2026) wraps it negative, and that entry never expires either.
   */
  lemma HintLifetime(now: Instant, secs: int)
    ensures 0 < secs <= MaxInt64 / Second && 0 < now + secs * Second <= MaxInt64 ==>
      ExpiryAfter(now, HintDuration(secs)) == Some(now + secs * Second)
    ensures secs == 0 && 0 < now + 60 * Second <= MaxInt64 ==>
      ExpiryAfter(now, HintDuration(secs)) == Some(now + 60 * Second)
    ensures -(MaxInt64 / Second) <= secs < 0 ==> ExpiryAfter(now, HintDuration(secs)).None?
    ensures 0 < secs <= MaxInt64 / Second && 0 <= now <= MaxInt64 && MaxInt64 < now + secs * Second ==>
      ExpiryAfter(now, HintDuration(secs)).None?
  {
    if -(MaxInt64 / Second) <= secs <= MaxInt64 / Second {
      assert MinInt64 <= secs * Second <= MaxInt64;
      assert HintDuration(secs) == secs * Second;
      var x := now + secs * Second;
      if 0 < secs && 0 <= now <= MaxInt64 && MaxInt64 < x {
        assert x < TwoTo64;
        assert x % TwoTo64 == x;
        assert WrapInt64(x) == x - TwoTo64;
      }
    }
  }

  /**
   * One second more than the largest hint whose duration fits wraps the
   * duration negative, so that entry never expires.
   */
  lemma HugeHintNeverExpires(now: Instant)
    ensures MaxInt64 / Second == 9_223_372_036
    ensures ExpiryAfter(now, HintDuration(9_223_372_037)).None?
  {
    assert HintDuration(9_223_372_037) == 9_223_372_037_000_000_000 - TwoTo64;
  }

  // ---------------------------------------------------------------------
  // SendRemoteCommand

  /**
   * A command request seals exactly the fields `clientData` (the data),
   * `username` and `authenticated` ("1" when the username was validated,
   * "0" otherwise).
   */
  lemma CommandFormFields(data: string, auth: AuthInfo)
    ensures CommandForm(data, auth).Keys == {"clientData", "username", "authenticated"}
    ensures CommandForm(data, auth)["clientData"] == [data]
    ensures CommandForm(data, auth)["username"] == [auth.twitchUsername]
    ensures CommandForm(data, auth)["authenticated"] == (if auth.usernameValidated then ["1"] else ["0"])
  {
  }

  /** A seal failure is returned before any request: the HTTP client and the decoder do not matter. */
  lemma CommandSealFailure(
    s: Snapshot, baseURL: string, remoteCommand: string, data: string, auth: AuthInfo,
    now: Instant, seal: Sealer, post1: Poster, decode1: Decoder, post2: Poster, decode2: Decoder)
    requires seal(CommandForm(data, auth)).SealFailed?
    ensures RemoteCommand(s, baseURL, remoteCommand, data, auth, now, seal, post1, decode1)
         == Step(Err(SealError(seal(CommandForm(data, auth)).reason)), s)
    ensures RemoteCommand(s, baseURL, remoteCommand, data, auth, now, seal, post1, decode1)
         == RemoteCommand(s, baseURL, remoteCommand, data, auth, now, seal, post2, decode2)
  {
  }

  /**
   * A transport failure and a body-read failure are passed on unchanged
   * and change nothing.
   */
  lemma CommandTransportOrReadFailure(
    s: Snapshot, baseURL: string, remoteCommand: string, data: string, auth: AuthInfo,
    now: Instant, seal: Sealer, post: Poster, decode: Decoder, sealed: Form)
    requires seal(CommandForm(data, auth)) == Sealed(sealed)
    ensures var step := RemoteCommand(s, baseURL, remoteCommand, data, auth, now, seal, post, decode);
      var posted := post(baseURL + CommandBucket(remoteCommand), sealed);
      && (posted.TransportFailed? ==> step == Step(Err(TransportError(posted.reason)), s))
      && (posted.Replied? && posted.reply.body.ReadFailed? ==>
            step == Step(Err(BodyReadError(posted.reply.body.reason)), s))
  {
  }

  /** Every failed command leaves the cache and the health map as they were. */
  lemma CommandFailureKeepsState(
    s: Snapshot, baseURL: string, remoteCommand: string, data: string, auth: AuthInfo,
    now: Instant, seal: Sealer, post: Poster, decode: Decoder)
    ensures var step := RemoteCommand(s, baseURL, remoteCommand, data, auth, now, seal, post, decode);
      step.result.Err? ==> step.after == s
  {
  }

  /** 401 means exactly ErrAuthorizationNeeded, whatever the body, content type or cache hint. */
  lemma CommandUnauthorized(
    s: Snapshot, baseURL: string, remoteCommand: string, data: string, auth: AuthInfo,
    now: Instant, seal: Sealer, post: Poster, decode: Decoder, reply: Reply)
    requires CommandReply(baseURL, remoteCommand, data, auth, seal, post) == Some(reply)
    requires reply.status == 401 && reply.body.Read?
    ensures RemoteCommand(s, baseURL, remoteCommand, data, auth, now, seal, post, decode)
         == Step(Err(AuthorizationNeeded), s)
  {
  }

  /**
   * Any other non-2xx reply is classified by its content type (JSON
   * forwarded or a decode error, anything else httpError) and changes
   * nothing.
   */
  lemma CommandRejected(
    s: Snapshot, baseURL: string, remoteCommand: string, data: string, auth: AuthInfo,
    now: Instant, seal: Sealer, post: Poster, decode: Decoder, reply: Reply, body: string)
    requires CommandReply(baseURL, remoteCommand, data, auth, seal, post) == Some(reply)
    requires reply.body == Read(body) && reply.status != 401 && !Is2xx(reply.status)
    ensures RemoteCommand(s, baseURL, remoteCommand, data, auth, now, seal, post, decode)
         == Step(Err(ClassifyFailure(reply.status, reply.contentType, body, decode)), s)
  {
  }

  /**
   * A command succeeds exactly when sealing, posting and reading succeed,
   * the status is 2xx and the cache hint is absent or a 64-bit integer;
   * it then returns the body.
   */
  lemma CommandSucceedsIff(
    s: Snapshot, baseURL: string, remoteCommand: string, data: string, auth: AuthInfo,
    now: Instant, seal: Sealer, post: Poster, decode: Decoder)
    ensures var step := RemoteCommand(s, baseURL, remoteCommand, data, auth, now, seal, post, decode);
      var reply := CommandReply(baseURL, remoteCommand, data, auth, seal, post);
      && (step.result.Ok? <==>
            && reply.Some? && reply.value.body.Read? && Is2xx(reply.value.status)
            && (reply.value.cacheHint == "" || ParseInt64(reply.value.cacheHint).Parsed?))
      && (step.result.Ok? ==> step.result.value == reply.value.body.text)
  {
  }

  /** A non-integer cache hint fails the whole call, though the backend answered 2xx. */
  lemma CommandBadCacheHint(
    s: Snapshot, baseURL: string, remoteCommand: string, data: string, auth: AuthInfo,
    now: Instant, seal: Sealer, post: Poster, decode: Decoder, reply: Reply)
    requires CommandReply(baseURL, remoteCommand, data, auth, seal, post) == Some(reply)
    requires reply.body.Read? && Is2xx(reply.status) && reply.cacheHint != ""
    requires ParseInt64(reply.cacheHint).Failed?
    ensures RemoteCommand(s, baseURL, remoteCommand, data, auth, now, seal, post, decode)
         == Step(Err(NonIntegerCacheDuration(reply.cacheHint, ParseInt64(reply.cacheHint).err)), s)
  {
  }

  /**
   * A successful command sets the shared "/cmd/" bucket and its own bucket
   * to `now` and changes no other bucket.
   */
  lemma CommandSuccessHealth(
    s: Snapshot, baseURL: string, remoteCommand: string, data: string, auth: AuthInfo,
    now: Instant, seal: Sealer, post: Poster, decode: Decoder)
    ensures var step := RemoteCommand(s, baseURL, remoteCommand, data, auth, now, seal, post, decode);
      step.result.Ok? ==>
        && step.after.health[PathOtherCommand] == now
        && step.after.health[CommandBucket(remoteCommand)] == now
        && step.after.health.Keys == s.health.Keys + {PathOtherCommand, CommandBucket(remoteCommand)}
        && SameElsewhere(s.health, step.after.health, {PathOtherCommand, CommandBucket(remoteCommand)})
  {
  }

  /**
   * Only a successful command with a cache hint writes the cache, and it
   * writes one entry: the body under the command's key, expiring as
   * go-cache derives it from the hint (see HintLifetime).
   */
  lemma CommandCacheWrite(
    s: Snapshot, baseURL: string, remoteCommand: string, data: string, auth: AuthInfo,
    now: Instant, seal: Sealer, post: Poster, decode: Decoder)
    ensures var step := RemoteCommand(s, baseURL, remoteCommand, data, auth, now, seal, post, decode);
      var reply := CommandReply(baseURL, remoteCommand, data, auth, seal, post);
      && (step.after.cache != s.cache ==> step.result.Ok? && reply.value.cacheHint != "")
      && (step.result.Ok? && reply.value.cacheHint != "" ==>
            step.after.cache == s.cache[CacheKey(remoteCommand, data) :=
              CacheEntry(step.result.value,
                         ExpiryAfter(now, HintDuration(ParseInt64(reply.value.cacheHint).value)))])
  {
  }

  // ---------------------------------------------------------------------
  // SendAggregatedData

  /**
   * Statistics never touch the cache; the call returns nil exactly on a
   * 2xx reply whose body closes cleanly, so a seal or transport failure is
   * an error.  Only a 2xx reply changes the health map, and only its
   * "/stats" bucket, to `now`.  A non-2xx reply is httpError with its status.
   */
  lemma AggregatedDataEffects(
    s: Snapshot, statsURL: string, form: Form, now: Instant, seal: Sealer, post: Poster)
    ensures var step := AggregatedData(s, statsURL, form, now, seal, post);
      var reply := Exchange(form, statsURL, seal, post);
      && step.after.cache == s.cache
      && (step.result.Pass? <==>
            reply.Some? && Is2xx(reply.value.status) && reply.value.closeError.None?)
      && (reply.Some? && Is2xx(reply.value.status) ==> step.after.health == s.health[PathAggStats := now])
      && (!(reply.Some? && Is2xx(reply.value.status)) ==> step.after.health == s.health)
      && (reply.Some? && !Is2xx(reply.value.status) ==> step.result == Fail(HttpError(reply.value.status)))
  {
  }

  /**
   * A 2xx statistics reply whose body fails to close still records the
   * success, and the close error is what the call returns.
   */
  lemma AggregatedDataCloseError(
    s: Snapshot, statsURL: string, form: Form, now: Instant, seal: Sealer, post: Poster,
    reply: Reply, e: string)
    requires Exchange(form, statsURL, seal, post) == Some(reply)
    requires Is2xx(reply.status) && reply.closeError == Some(e)
    ensures AggregatedData(s, statsURL, form, now, seal, post)
         == Step(Fail(CloseError(e)), Snapshot(s.cache, s.health[PathAggStats := now]))
  {
  }

  /** No statistics call ever changes a command bucket. */
  lemma AggregatedDataKeepsCommandBuckets(
    s: Snapshot, statsURL: string, form: Form, now: Instant, seal: Sealer, post: Poster,
    remoteCommand: string)
    ensures var after := AggregatedData(s, statsURL, form, now, seal, post).after.health;
      && (CommandBucket(remoteCommand) in after <==> CommandBucket(remoteCommand) in s.health)
      && (CommandBucket(remoteCommand) in s.health ==>
            after[CommandBucket(remoteCommand)] == s.health[CommandBucket(remoteCommand)])
  {
    assert CommandBucket(remoteCommand)[1] == 'c' != PathAggStats[1];
  }

  // ---------------------------------------------------------------------
  // Topic notices

  /**
   * A topic notice seals exactly the fields `channels` (the topic) and
   * `added` ("t" or "f").
   */
  lemma TopicNoticeForm(topic: string, added: bool)
    ensures TopicForm(topic, added).Keys == {"channels", "added"}
    ensures TopicForm(topic, added)["channels"] == [topic]
    ensures TopicForm(topic, added)["added"] == (if added then ["t"] else ["f"])
  {
  }

  /**
   * The cleanup notice sends "f" and a `channels` field from which the
   * topics can be read back, when none of them contains a ','.
   */
  lemma CleanupNoticeListsTopics(topics: seq<string>)
    requires |topics| >= 1
    requires forall i :: 0 <= i < |topics| ==> ',' !in topics[i]
    ensures var form := TopicForm(Join(topics, ","), false);
      form["added"] == ["f"] && Split(form["channels"][0], ',') == topics
  {
    SplitJoin(topics, ',');
  }

  /**
   * A non-2xx reply to a topic notice is ErrBackendNotOK with the status
   * and the body, or a fixed text and the read error when the body could
   * not be read; nothing changes.
   */
  lemma TopicNoticeRejected(
    s: Snapshot, topicURL: string, topic: string, added: bool, now: Instant,
    seal: Sealer, post: Poster, reply: Reply)
    requires Exchange(TopicForm(topic, added), topicURL, seal, post) == Some(reply)
    requires !Is2xx(reply.status)
    ensures var response := if reply.body.Read? then reply.body.text
                            else ReadFailurePrefix + reply.body.reason;
      TopicNotice(s, topicURL, topic, added, now, seal, post)
      == Step(Fail(BackendNotOK(reply.status, response)), s)
  {
  }

  /**
   * A topic notice succeeds exactly on a 2xx reply; it then sets the
   * "/topics" bucket to `now`, and otherwise no bucket changes.  The cache
   * never changes.
   */
  lemma TopicNoticeEffects(
    s: Snapshot, topicURL: string, topic: string, added: bool, now: Instant,
    seal: Sealer, post: Poster)
    ensures var step := TopicNotice(s, topicURL, topic, added, now, seal, post);
      var reply := Exchange(TopicForm(topic, added), topicURL, seal, post);
      && step.after.cache == s.cache
      && (step.result.Pass? <==> reply.Some? && Is2xx(reply.value.status))
      && (step.result.Pass? ==> step.after.health == s.health[PathAddTopic := now])
      && (step.result.Fail? ==> step.after.health == s.health)
  {
  }

  /** The cleanup notice is the topic notice of the joined topics with `added` false. */
  lemma CleanupNoticeIsTopicNotice(
    s: Snapshot, topicURL: string, topics: seq<string>, now: Instant, seal: Sealer, post: Poster)
    ensures CleanupTopicsNotice(s, topicURL, topics, now, seal, post)
         == TopicNotice(s, topicURL, Join(topics, ","), false, now, seal, post)
  {
  }

  // ---------------------------------------------------------------------
  // The health map as a whole

  /**
   * No operation removes a health bucket, so the four fixed buckets
   * survive every call.
   */
  lemma HealthBucketsPersist(
    s: Snapshot, baseURL: string, remoteCommand: string, data: string, auth: AuthInfo,
    form: Form, topic: string, added: bool, now: Instant, seal: Sealer, post: Poster, decode: Decoder)
    requires HasFixedBuckets(s.health)
    ensures var a := RemoteCommand(s, baseURL, remoteCommand, data, auth, now, seal, post, decode).after;
      s.health.Keys <= a.health.Keys && HasFixedBuckets(a.health)
    ensures var a := RemoteCommandCached(s, baseURL, remoteCommand, data, auth, now, seal, post, decode).after;
      s.health.Keys <= a.health.Keys && HasFixedBuckets(a.health)
    ensures var a := AggregatedData(s, baseURL + PathAggStats, form, now, seal, post).after;
      s.health.Keys <= a.health.Keys && HasFixedBuckets(a.health)
    ensures var a := TopicNotice(s, baseURL + PathAddTopic, topic, added, now, seal, post).after;
      s.health.Keys <= a.health.Keys && HasFixedBuckets(a.health)
  {
  }
}
