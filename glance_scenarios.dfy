/** The cases of `TestGlanceStore`, each stated as a lemma about the
    store's specification: the fixture (glance host 1.1.1.1, port 123,
    no TLS; a context for user `user`, project `project`, token `foobar`;
    repository path `/fake/sr/path`; uuid stack `["uuid1"]`; an instance
    with `auto_disk_config` true and `os_type` `default`), and the calls,
    sleeps and result each case expects. `random.shuffle` is patched to do
    nothing in these cases, so the permutation is the identity. */
module GlanceScenarios {
  import opened Strings
  import opened Endpoints
  import opened Failures
  import opened Retry
  import opened GlanceStore

  const TestContext := RequestContext("foobar", "user", "project", [])
  const TestImage := "fake_image_uuid"
  const TestSrPath := "/fake/sr/path"
  const TestUuidStack := ["uuid1"]
  const TestVdis := ["fake_vdi_uuid"]
  const FixtureStore := StoreConfig("1.1.1.1", 123, false, [])
  const FixtureEndpoint := Endpoint("1.1.1.1", 123, false)

  function TestInstance(osType: OsType, sysMeta: seq<MetadataItem>): Instance {
    Instance("blah", true, osType, sysMeta)
  }

  const RetryableFailure := XenApiFailure(["", "", "RetryableError", ""])

  /** The extra headers the fixture's context yields. */
  lemma FixtureHeaders()
    ensures IdentityHeaders(TestContext)
         == map["X-Auth-Token" := "foobar", "X-Roles" := "", "X-Tenant-Id" := "project",
                "X-User-Id" := "user", "X-Identity-Status" := "Confirmed"]
  {
  }

  /** With no server list, the pool is the configured 1.1.1.1:123. */
  lemma FixturePool(numRetries: nat)
    ensures ApiServers(GlanceConfig(FixtureStore, numRetries).store) == Pool([FixtureEndpoint])
    ensures ShuffleFits(GlanceConfig(FixtureStore, numRetries), [0])
  {
    DefaultPool(FixtureStore);
  }

  /** `random.shuffle` patched to do nothing: the identity permutation. */
  predicate InPlace(perm: seq<nat>, n: nat) {
    |perm| == n && forall i :: 0 <= i < n ==> perm[i] == i
  }

  /** A download over a pool left in order that stops at attempt n: n + 1
      calls walking the pool, their log lines, the first n sleeps, and the
      plugin's answer. */
  lemma DownloadInOrder(cfg: GlanceConfig, ctx: RequestContext, imageId: string, srPath: string,
                        uuidStack: seq<string>, pool: seq<Endpoint>, perm: seq<nat>, respond: nat -> Outcome, n: nat)
    requires ApiServers(cfg.store) == Pool(pool) && InPlace(perm, |pool|)
    requires n <= cfg.numRetries
    requires forall k :: 0 <= k < n ==> Continues(respond(k))
    requires !Continues(respond(n))
    ensures ShuffleFits(cfg, perm) &&
     (var t := Download(cfg, ctx, imageId, srPath, uuidStack, perm, respond);
      && t.calls == Calls(PluginName, DownloadFn, pool, DownloadParams(ctx, imageId, srPath, uuidStack), n + 1)
      && t.log == Logs(PluginName, DownloadFn, pool, cfg.numRetries + 1, n + 1)
      && t.sleeps == Sleeps(n)
      && (respond(n).Returned? ==> t.result == Ok(respond(n).payload))
      && (respond(n).Raised? ==> t.result == Err(PluginRaised(respond(n).failure))))
  {
    ShuffleIdentity(pool, perm);
    DownloadOnPool(cfg, ctx, imageId, srPath, uuidStack, perm, respond, pool);
    StopsAtFirstNonTransient(PluginName, DownloadFn, cfg.numRetries, pool,
                             DownloadParams(ctx, imageId, srPath, uuidStack), respond, n);
  }

  /** An upload over a pool left in order that stops at attempt n: n + 1
      calls walking the pool, the first n sleeps, and success or the
      failure. */
  lemma UploadInOrder(cfg: GlanceConfig, ctx: RequestContext, inst: Instance, vdiUuids: seq<string>,
                      imageId: string, srPath: string, pool: seq<Endpoint>, perm: seq<nat>,
                      respond: nat -> Outcome, n: nat)
    requires ApiServers(cfg.store) == Pool(pool) && InPlace(perm, |pool|)
    requires n <= cfg.numRetries
    requires forall k :: 0 <= k < n ==> Continues(respond(k))
    requires !Continues(respond(n))
    ensures ShuffleFits(cfg, perm) &&
     (var t := Upload(cfg, ctx, inst, vdiUuids, imageId, srPath, perm, respond);
      && t.calls == Calls(PluginName, UploadFn, pool, UploadParams(ctx, inst, imageId, srPath, vdiUuids), n + 1)
      && t.sleeps == Sleeps(n)
      && (respond(n).Returned? ==> t.result == Ok(()))
      && (respond(n).Raised? ==> t.result == Err(PluginRaised(respond(n).failure))))
  {
    ShuffleIdentity(pool, perm);
    UploadOnPool(cfg, ctx, inst, vdiUuids, imageId, srPath, perm, respond, pool);
    StopsAtFirstNonTransient(PluginName, UploadFn, cfg.numRetries, pool,
                             UploadParams(ctx, inst, imageId, srPath, vdiUuids), respond, n);
  }

  /** An upload over a pool left in order where every attempt fails
      transiently: all `num_retries + 1` calls, the whole schedule of
      sleeps, and `CouldNotUploadImage`. */
  lemma UploadInOrderExhausted(cfg: GlanceConfig, ctx: RequestContext, inst: Instance, vdiUuids: seq<string>,
                               imageId: string, srPath: string, pool: seq<Endpoint>, perm: seq<nat>,
                               respond: nat -> Outcome)
    requires ApiServers(cfg.store) == Pool(pool) && InPlace(perm, |pool|)
    requires AllTransient(cfg, respond)
    ensures ShuffleFits(cfg, perm) &&
     (var t := Upload(cfg, ctx, inst, vdiUuids, imageId, srPath, perm, respond);
      && t.calls == Calls(PluginName, UploadFn, pool, UploadParams(ctx, inst, imageId, srPath, vdiUuids),
                          cfg.numRetries + 1)
      && t.sleeps == Sleeps(cfg.numRetries)
      && t.result == Err(CouldNotUploadImage(imageId)))
  {
    ShuffleIdentity(pool, perm);
    UploadOnPool(cfg, ctx, inst, vdiUuids, imageId, srPath, perm, respond, pool);
    ExhaustedIff(PluginName, UploadFn, cfg.numRetries, pool,
                 UploadParams(ctx, inst, imageId, srPath, vdiUuids), respond);
  }

  /** test_download_image: whatever the retry count, a download the plugin
      answers at once makes one call of `glance.download_vhd` with the
      fixture's parameters at 1.1.1.1:123, sleeps never, and returns the
      plugin's answer. */
  lemma DownloadOneCall(numRetries: nat, respond: nat -> Outcome)
    requires respond(0).Returned?
    ensures ShuffleFits(GlanceConfig(FixtureStore, numRetries), [0]) &&
     ( var t := Download(GlanceConfig(FixtureStore, numRetries), TestContext, TestImage, TestSrPath,
                        TestUuidStack, [0], respond);
      && t.calls == [PluginCall("glance", "download_vhd", FixtureEndpoint,
                                Params(TestImage, TestSrPath, IdentityHeaders(TestContext),
                                       DownloadArgs(TestUuidStack)))]
      && t.sleeps == []
      && t.result == Ok(respond(0).payload))
  {
    FixturePool(numRetries);
    DownloadInOrder(GlanceConfig(FixtureStore, numRetries), TestContext, TestImage, TestSrPath, TestUuidStack,
                  [FixtureEndpoint], [0], respond, 0);
    CallsOnOne(PluginName, DownloadFn, FixtureEndpoint, DownloadParams(TestContext, TestImage, TestSrPath, TestUuidStack));
    SleepSchedule();
  }

  /** A server string written from a colon-free host parses back to it. */
  lemma ParsesAs(s: string, scheme: Option<string>, host: string, port: nat, defaultUseSsl: bool)
    requires s == FormatServer(scheme, host, port)
    requires host != [] && ':' !in host
    requires scheme.Some? ==> ':' !in scheme.value
    ensures ParseServer(s, defaultUseSsl)
         == Parsed(Endpoint(host, port, if scheme.Some? then scheme.value == "https" else defaultUseSsl))
  {
    FormatParseRoundTrip(scheme, host, port, defaultUseSsl);
  }

  /** `10.0.1.1:9292` is 10.0.1.1 and port 9292 with no scheme. */
  lemma FirstServerFormat()
    ensures FormatServer(None, "10.0.1.1", 9292) == "10.0.1.1:9292"
  {
    assert NatToDecimal(9292) == "9292";
  }

  /** `http://10.0.0.1:9293` is 10.0.0.1 and port 9293 under `http`. */
  lemma SecondServerFormat()
    ensures FormatServer(Some("http"), "10.0.0.1", 9293) == "http://10.0.0.1:9293"
  {
    SecondPortDigits();
  }

  /** Port 9293 is written `9293`. */
  lemma SecondPortDigits()
    ensures NatToDecimal(9293) == "9293"
  {
    assert DigitChar(9) == '9' && DigitChar(2) == '2' && DigitChar(3) == '3';
    assert NatToDecimal(92) == "92";
    assert NatToDecimal(929) == "929";
    assert 9293 / 10 == 929 && 9293 % 10 == 3;
    assert NatToDecimal(9293) == NatToDecimal(929) + [DigitChar(3)];
  }

  /** `10.0.1.1:9292`: no scheme, so TLS follows the default (off). */
  lemma FirstServerParses()
    ensures ParseServer("10.0.1.1:9292", false) == Parsed(Endpoint("10.0.1.1", 9292, false))
  {
    FirstServerFormat();
    ParsesAs("10.0.1.1:9292", None, "10.0.1.1", 9292, false);
  }

  /** `http://10.0.0.1:9293`: the `http` scheme is stripped and TLS is off. */
  lemma SecondServerParses()
    ensures ParseServer("http://10.0.0.1:9293", false) == Parsed(Endpoint("10.0.0.1", 9293, false))
  {
    var sc: Option<string> := Some("http");
    SecondServerFormat();
    assert FormatServer(sc, "10.0.0.1", 9293) == "http://10.0.0.1:9293";
    ParsesAs("http://10.0.0.1:9293", sc, "10.0.0.1", 9293, false);
  }

  /** A list of two server strings that both parse is a pool of two. */
  lemma PoolOfTwo(cfg: StoreConfig, e0: Endpoint, e1: Endpoint)
    requires |cfg.apiServers| == 2
    requires ParseServer(cfg.apiServers[0], cfg.defaultUseSsl) == Parsed(e0)
    requires ParseServer(cfg.apiServers[1], cfg.defaultUseSsl) == Parsed(e1)
    ensures ApiServers(cfg) == Pool([e0, e1])
  {
    var servers := cfg.apiServers;
    assert ServerStrings(cfg) == servers;
    forall i | 0 <= i < |servers| ensures ParseServer(servers[i], cfg.defaultUseSsl) == Parsed([e0, e1][i]) {
      assert i == 0 || i == 1;
    }
    ParseAllParsed(servers, cfg.defaultUseSsl, [e0, e1]);
  }

  /** The two servers of test_download_image_retry, in configured order. */
  lemma RetryServersParse()
    ensures ApiServers(StoreConfig("1.1.1.1", 123, false, ["10.0.1.1:9292", "http://10.0.0.1:9293"]))
         == Pool([Endpoint("10.0.1.1", 9292, false), Endpoint("10.0.0.1", 9293, false)])
  {
    FirstServerParses();
    SecondServerParses();
    PoolOfTwo(StoreConfig("1.1.1.1", 123, false, ["10.0.1.1:9292", "http://10.0.0.1:9293"]),
              Endpoint("10.0.1.1", 9292, false), Endpoint("10.0.0.1", 9293, false));
  }

  /** The first sleeps of the schedule: none, then 0.5 s, then 1 s. */
  lemma SleepSchedule()
    ensures Sleeps(0) == [] && Sleeps(1) == [500] && Sleeps(2) == [500, 1000]
  {
    assert BackoffMs(0) == 500 && BackoffMs(1) == 1000;
  }

  /** Two calls over a pool of two go to each endpoint in turn. */
  lemma CallsOnTwo<P>(plugin: string, fn: string, order: seq<Endpoint>, params: P)
    requires |order| == 2
    ensures Calls(plugin, fn, order, params, 2)
         == [PluginCall(plugin, fn, order[0], params), PluginCall(plugin, fn, order[1], params)]
  {
    assert 1 % 2 == 1;
  }

  /** The two log lines of two attempts over a pool of two. */
  lemma LogsOnTwo(plugin: string, fn: string, order: seq<Endpoint>, attempts: nat)
    requires |order| == 2
    ensures Logs(plugin, fn, order, attempts, 2)
         == [AttemptLog(plugin, fn, 1, attempts, order[0].host), AttemptLog(plugin, fn, 2, attempts, order[1].host)]
  {
    assert 1 % 2 == 1;
  }

  /** Over a pool of one, every call goes to its one endpoint. */
  lemma CallsOnOne<P>(plugin: string, fn: string, e: Endpoint, params: P)
    ensures Calls(plugin, fn, [e], params, 1) == [PluginCall(plugin, fn, e, params)]
    ensures Calls(plugin, fn, [e], params, 3)
         == [PluginCall(plugin, fn, e, params), PluginCall(plugin, fn, e, params), PluginCall(plugin, fn, e, params)]
  {
    assert 1 % 1 == 0 && 2 % 1 == 0;
  }

  /** Two retries over a pool of two endpoints left in order: a transient
      failure and then a success make one call to each endpoint, logged as
      attempts 1 and 2 of 3, with a single 0.5 s sleep between them. */
  lemma DownloadRetryOnTwo(cfg: GlanceConfig, pool: seq<Endpoint>, respond: nat -> Outcome)
    requires ApiServers(cfg.store) == Pool(pool) && |pool| == 2 && cfg.numRetries == 2
    requires Continues(respond(0)) && respond(1).Returned?
    ensures ShuffleFits(cfg, [0, 1]) &&
     (var params := DownloadParams(TestContext, TestImage, TestSrPath, TestUuidStack);
      var t := Download(cfg, TestContext, TestImage, TestSrPath, TestUuidStack, [0, 1], respond);
      && t.calls == [PluginCall(PluginName, DownloadFn, pool[0], params),
                     PluginCall(PluginName, DownloadFn, pool[1], params)]
      && t.log == [AttemptLog(PluginName, DownloadFn, 1, 3, pool[0].host),
                   AttemptLog(PluginName, DownloadFn, 2, 3, pool[1].host)]
      && t.sleeps == [500]
      && t.result == Ok(respond(1).payload))
  {
    DownloadInOrder(cfg, TestContext, TestImage, TestSrPath, TestUuidStack, pool, [0, 1], respond, 1);
    var params := DownloadParams(TestContext, TestImage, TestSrPath, TestUuidStack);
    CallsOnTwo(PluginName, DownloadFn, pool, params);
    LogsOnTwo(PluginName, DownloadFn, pool, 3);
    SleepSchedule();
  }

  /** test_download_image_retry: with two retries, a `RetryableError`
      followed by success makes exactly two calls, first to 10.0.1.1:9292
      and then to 10.0.0.1:9293 with the same other parameters, logs
      attempts 1/3 and 2/3 naming those hosts, sleeps 0.5 s once, and
      returns `success`. */
  lemma DownloadRetryThenSuccess(respond: nat -> Outcome)
    requires respond(0) == Raised(RetryableFailure)
    requires respond(1) == Returned("success")
    ensures ShuffleFits(GlanceConfig(StoreConfig("1.1.1.1", 123, false, ["10.0.1.1:9292", "http://10.0.0.1:9293"]), 2), [0, 1]) &&
     (var cfg := GlanceConfig(StoreConfig("1.1.1.1", 123, false, ["10.0.1.1:9292", "http://10.0.0.1:9293"]), 2);
      var params := Params(TestImage, TestSrPath, IdentityHeaders(TestContext), DownloadArgs(TestUuidStack));
      var t := Download(cfg, TestContext, TestImage, TestSrPath, TestUuidStack, [0, 1], respond);
      && t.calls == [PluginCall("glance", "download_vhd", Endpoint("10.0.1.1", 9292, false), params),
                     PluginCall("glance", "download_vhd", Endpoint("10.0.0.1", 9293, false), params)]
      && t.log == [AttemptLog("glance", "download_vhd", 1, 3, "10.0.1.1"),
                   AttemptLog("glance", "download_vhd", 2, 3, "10.0.0.1")]
      && t.sleeps == [500]
      && t.result == Ok("success"))
  {
    RetryServersParse();
    RetryableErrorLine();
    DownloadRetryOnTwo(GlanceConfig(StoreConfig("1.1.1.1", 123, false, ["10.0.1.1:9292", "http://10.0.0.1:9293"]), 2),
                       [Endpoint("10.0.1.1", 9292, false), Endpoint("10.0.0.1", 9293, false)], respond);
  }

  /** test_upload_image and its variants: the `properties` sent. */
  lemma FixtureUploadProperties()
    ensures UploadProperties(TestInstance(Given("default"), [])) == Properties(Flag(true), "default")
    ensures UploadProperties(TestInstance(Null, [])) == Properties(Flag(true), "linux")
    ensures UploadProperties(TestInstance(Absent, [])) == Properties(Flag(true), "linux")
    ensures UploadProperties(TestInstance(Given("default"),
                                          [MetadataItem("image_auto_disk_config", "Disabled")]))
         == Properties(Disabled, "default")
  {
  }

  /** test_upload_image: an upload the plugin accepts at once makes one
      call of `glance.upload_vhd` with the fixture's parameters, the
      instance's disks and its defaulted properties, and succeeds. */
  lemma UploadOneCall(numRetries: nat, inst: Instance, respond: nat -> Outcome)
    requires respond(0).Returned?
    ensures ShuffleFits(GlanceConfig(FixtureStore, numRetries), [0]) &&
     ( var t := Upload(GlanceConfig(FixtureStore, numRetries), TestContext, inst, TestVdis, TestImage,
                      TestSrPath, [0], respond);
      && t.calls == [PluginCall("glance", "upload_vhd", FixtureEndpoint,
                                Params(TestImage, TestSrPath, IdentityHeaders(TestContext),
                                       UploadArgs(TestVdis, UploadProperties(inst))))]
      && t.sleeps == []
      && t.result == Ok(()))
  {
    FixturePool(numRetries);
    UploadInOrder(GlanceConfig(FixtureStore, numRetries), TestContext, inst, TestVdis, TestImage, TestSrPath,
                [FixtureEndpoint], [0], respond, 0);
    CallsOnOne(PluginName, UploadFn, FixtureEndpoint, UploadParams(TestContext, inst, TestImage, TestSrPath, TestVdis));
    SleepSchedule();
  }

  /** test_upload_image_raises_exception: a `RuntimeError` from the first
      call is raised as it came, after that one call and no sleep. */
  lemma UploadRaisesOtherError(numRetries: nat, respond: nat -> Outcome)
    requires respond(0) == Raised(OtherError("RuntimeError"))
    ensures ShuffleFits(GlanceConfig(FixtureStore, numRetries), [0]) &&
     ( var call := PluginCall("glance", "upload_vhd", FixtureEndpoint,
                             Params(TestImage, TestSrPath, IdentityHeaders(TestContext),
                                    UploadArgs(TestVdis, Properties(Flag(true), "default"))));
      var t := Upload(GlanceConfig(FixtureStore, numRetries), TestContext, TestInstance(Given("default"), []),
                      TestVdis, TestImage, TestSrPath, [0], respond);
      && t.calls == [call]
      && t.sleeps == []
      && t.result == Err(PluginRaised(OtherError("RuntimeError"))))
  {
    var inst := TestInstance(Given("default"), []);
    FixturePool(numRetries);
    OtherErrorIsFatal("RuntimeError");
    UploadInOrder(GlanceConfig(FixtureStore, numRetries), TestContext, inst, TestVdis, TestImage, TestSrPath,
                [FixtureEndpoint], [0], respond, 0);
    FixtureUploadProperties();
    CallsOnOne(PluginName, UploadFn, FixtureEndpoint, UploadParams(TestContext, inst, TestImage, TestSrPath, TestVdis));
    SleepSchedule();
  }

  /** test_upload_image_retries_then_raises_exception: with two retries and
      `RetryableError` every time, three identical calls are made with
      sleeps of 0.5 s and 1 s between them, and `CouldNotUploadImage` is
      raised rather than the plugin's failure. */
  lemma UploadRetriesThenRaises(respond: nat -> Outcome)
    requires forall k :: 0 <= k < 3 ==> respond(k) == Raised(RetryableFailure)
    ensures ShuffleFits(GlanceConfig(FixtureStore, 2), [0]) &&
     ( var inst := TestInstance(Given("default"), []);
      var call := PluginCall("glance", "upload_vhd", FixtureEndpoint,
                             Params(TestImage, TestSrPath, IdentityHeaders(TestContext),
                                    UploadArgs(TestVdis, Properties(Flag(true), "default"))));
      var t := Upload(GlanceConfig(FixtureStore, 2), TestContext, inst, TestVdis, TestImage, TestSrPath, [0], respond);
      && t.calls == [call, call, call]
      && t.sleeps == [500, 1000]
      && t.result == Err(CouldNotUploadImage(TestImage)))
  {
    var inst := TestInstance(Given("default"), []);
    FixturePool(2);
    RetryableErrorLine();
    UploadInOrderExhausted(GlanceConfig(FixtureStore, 2), TestContext, inst, TestVdis, TestImage, TestSrPath,
                         [FixtureEndpoint], [0], respond);
    FixtureUploadProperties();
    CallsOnOne(PluginName, UploadFn, FixtureEndpoint, UploadParams(TestContext, inst, TestImage, TestSrPath, TestVdis));
    SleepSchedule();
  }

  /** The two failures of test_upload_image_retries_on_signal_exception
      are both transient. */
  lemma SignalFailuresTransient(respond: nat -> Outcome)
    requires respond(0) == Raised(XenApiFailure(["", "task signaled", "", ""]))
    requires respond(1) == Raised(XenApiFailure(["", "signal: SIGTERM", "", ""]))
    ensures forall k :: 0 <= k < 2 ==> Continues(respond(k))
  {
    TaskSignaledLine();
    SignalLine();
  }

  /** test_upload_image_retries_on_signal_exception: `task signaled` and
      then `signal: SIGTERM` are retried with sleeps of 0.5 s and 1 s, and
      the third call's success ends the upload normally. */
  lemma UploadRetriesOnSignal(respond: nat -> Outcome)
    requires respond(0) == Raised(XenApiFailure(["", "task signaled", "", ""]))
    requires respond(1) == Raised(XenApiFailure(["", "signal: SIGTERM", "", ""]))
    requires respond(2).Returned?
    ensures ShuffleFits(GlanceConfig(FixtureStore, 2), [0]) &&
     ( var call := PluginCall("glance", "upload_vhd", FixtureEndpoint,
                             Params(TestImage, TestSrPath, IdentityHeaders(TestContext),
                                    UploadArgs(TestVdis, Properties(Flag(true), "default"))));
      var t := Upload(GlanceConfig(FixtureStore, 2), TestContext, TestInstance(Given("default"), []),
                      TestVdis, TestImage, TestSrPath, [0], respond);
      && t.calls == [call, call, call]
      && t.sleeps == [500, 1000]
      && t.result == Ok(()))
  {
    var inst := TestInstance(Given("default"), []);
    FixturePool(2);
    SignalFailuresTransient(respond);
    UploadInOrder(GlanceConfig(FixtureStore, 2), TestContext, inst, TestVdis, TestImage, TestSrPath,
                [FixtureEndpoint], [0], respond, 2);
    FixtureUploadProperties();
    CallsOnOne(PluginName, UploadFn, FixtureEndpoint, UploadParams(TestContext, inst, TestImage, TestSrPath, TestVdis));
    SleepSchedule();
  }
}
