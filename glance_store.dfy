/** `GlanceStore`: moving a VHD image between the hypervisor host and the
    image store through the `glance` plugin. Each operation builds one
    parameter map (image id, storage-repository path, identity headers, and
    the download or upload specific entries), then runs the session's retry
    loop with a callback that sets `glance_host`, `glance_port` and
    `glance_use_ssl` from the next endpoint of the shuffled pool. When the
    retries are used up the session's "retries exceeded" error becomes
    `CouldNotFetchImage` / `CouldNotUploadImage`.

    Inputs the store takes from collaborators are parameters here: the
    repository path (`vm_utils.get_sr_path`), the uuid stack
    (`vm_utils._make_uuid_stack`), the shuffle's permutation and the
    plugin's answers. */
module GlanceStore {
  import opened Strings
  import opened Endpoints
  import opened Failures
  import opened Retry

  /** The request context fields the identity headers are made from. */
  datatype RequestContext = RequestContext(authToken: string, userId: string, tenantId: string, roles: seq<string>)

  /** The `os_type` entry of an instance: missing, `None`, or a value. */
  datatype OsType = Absent | Null | Given(value: string)

  /** One row of an instance's system metadata. */
  datatype MetadataItem = MetadataItem(key: string, value: string)

  datatype Instance = Instance(
    uuid: string,
    autoDiskConfig: bool,
    osType: OsType,
    systemMetadata: seq<MetadataItem>)

  /** The `auto_disk_config` property: the instance's flag, or the string
      `"disabled"`. */
  datatype AutoDiskConfig = Flag(enabled: bool) | Disabled

  /** The image `properties` map sent with an upload. */
  datatype Properties = Properties(autoDiskConfig: AutoDiskConfig, osType: string)

  /** The entries that differ between the two operations. */
  datatype TransferArgs =
    | DownloadArgs(uuidStack: seq<string>)
    | UploadArgs(vdiUuids: seq<string>, properties: Properties)

  /** The fixed part of the plugin's keyword arguments: everything but
      `glance_host`, `glance_port` and `glance_use_ssl`. */
  datatype Params = Params(imageId: string, srPath: string, extraHeaders: map<string, string>, args: TransferArgs)

  /** Settings of the `glance` option group this core reads. */
  datatype GlanceConfig = GlanceConfig(store: StoreConfig, numRetries: nat)

  datatype ImageError =
    | PluginRetriesExceeded(numRetries: nat)
    | CouldNotFetchImage(imageId: string)
    | CouldNotUploadImage(imageId: string)
    | PluginRaised(failure: Failure)
    | InvalidApiServer(error: ConfigError)

  datatype Result<T> = Ok(value: T) | Err(error: ImageError)

  /** The observable effect of one store operation. */
  datatype Transfer<T> = Transfer(calls: seq<PluginCall<Params>>, log: seq<AttemptLog>, sleeps: seq<nat>, result: Result<T>)

  const PluginName := "glance"
  const DownloadFn := "download_vhd"
  const UploadFn := "upload_vhd"
  /** The guest type sent when the instance names none. */
  const DefaultOsType := "linux"
  const AutoDiskConfigKey := "image_auto_disk_config"

  const HeaderKeys: set<string> :=
    {"X-Auth-Token", "X-Roles", "X-Tenant-Id", "X-User-Id", "X-Identity-Status"}

  /** The identity headers sent to the image store with every call: the
      context's token, tenant and user, and a confirmed identity. */
  function IdentityHeaders(ctx: RequestContext): (h: map<string, string>)
    ensures h.Keys == HeaderKeys
    ensures h["X-Auth-Token"] == ctx.authToken && h["X-Tenant-Id"] == ctx.tenantId
    ensures h["X-User-Id"] == ctx.userId && h["X-Identity-Status"] == "Confirmed"
  {
    map["X-Auth-Token" := ctx.authToken,
        "X-Roles" := Join(ctx.roles, ','),
        "X-Tenant-Id" := ctx.tenantId,
        "X-User-Id" := ctx.userId,
        "X-Identity-Status" := "Confirmed"]
  }

  /** `X-Roles` carries the role list: empty for no roles, and split at
      its commas it gives the roles back when no role holds a comma. */
  lemma RolesHeader(ctx: RequestContext)
    ensures ctx.roles == [] ==> IdentityHeaders(ctx)["X-Roles"] == ""
    ensures ctx.roles != [] && (forall i :: 0 <= i < |ctx.roles| ==> ',' !in ctx.roles[i]) ==>
              Split(IdentityHeaders(ctx)["X-Roles"], ',') == ctx.roles
  {
    if ctx.roles != [] && (forall i :: 0 <= i < |ctx.roles| ==> ',' !in ctx.roles[i]) {
      SplitJoin(ctx.roles, ',');
    }
  }

  /** The value of the last metadata row with this key; later rows win, as
      when the rows are turned into a dictionary. */
  function LookupMetadata(items: seq<MetadataItem>, key: string): (r: Option<string>)
    ensures r.Some? ==> exists i :: 0 <= i < |items| && items[i] == MetadataItem(key, r.value) &&
                          forall j :: i < j < |items| ==> items[j].key != key
    ensures r.None? <==> forall i :: 0 <= i < |items| ==> items[i].key != key
  {
    if items == [] then None
    else if items[|items| - 1].key == key then Some(items[|items| - 1].value)
    else
      var r := LookupMetadata(items[..|items| - 1], key);
      assert forall i :: 0 <= i < |items| - 1 ==> items[..|items| - 1][i] == items[i];
      r
  }

  /** The upload's `os_type`: the instance's, or the default guest type
      when it is missing or `None`. */
  function OsTypeProperty(t: OsType): string {
    match t
    case Given(v) => v
    case _ => DefaultOsType
  }

  /** The upload's `auto_disk_config`: `"disabled"` when the image's system
      metadata says `Disabled`, the instance's own flag otherwise. */
  function AutoDiskConfigProperty(inst: Instance): AutoDiskConfig {
    if LookupMetadata(inst.systemMetadata, AutoDiskConfigKey) == Some("Disabled") then Disabled
    else Flag(inst.autoDiskConfig)
  }

  function UploadProperties(inst: Instance): Properties {
    Properties(AutoDiskConfigProperty(inst), OsTypeProperty(inst.osType))
  }

  /** `os_type` passes through when given and is `linux` otherwise. */
  lemma OsTypeDefaulting(inst: Instance)
    ensures inst.osType.Given? ==> UploadProperties(inst).osType == inst.osType.value
    ensures !inst.osType.Given? ==> UploadProperties(inst).osType == "linux"
  {
  }

  /** `auto_disk_config` is `"disabled"` exactly when the last system
      metadata row for `image_auto_disk_config` says `Disabled`; otherwise it
      is the instance's flag. */
  lemma AutoDiskConfigDisabledIff(inst: Instance)
    ensures UploadProperties(inst).autoDiskConfig == Disabled <==>
      exists i :: 0 <= i < |inst.systemMetadata| &&
        inst.systemMetadata[i] == MetadataItem(AutoDiskConfigKey, "Disabled") &&
        forall j :: i < j < |inst.systemMetadata| ==> inst.systemMetadata[j].key != AutoDiskConfigKey
    ensures UploadProperties(inst).autoDiskConfig != Disabled ==>
      UploadProperties(inst).autoDiskConfig == Flag(inst.autoDiskConfig)
  {
    var items := inst.systemMetadata;
    var r := LookupMetadata(items, AutoDiskConfigKey);
    if exists i :: 0 <= i < |items| && items[i] == MetadataItem(AutoDiskConfigKey, "Disabled") &&
                   forall j :: i < j < |items| ==> items[j].key != AutoDiskConfigKey {
      var i :| 0 <= i < |items| && items[i] == MetadataItem(AutoDiskConfigKey, "Disabled") &&
               forall j :: i < j < |items| ==> items[j].key != AutoDiskConfigKey;
      assert items[i].key == AutoDiskConfigKey;
      var i' :| 0 <= i' < |items| && items[i'] == MetadataItem(AutoDiskConfigKey, r.value) &&
                forall j :: i' < j < |items| ==> items[j].key != AutoDiskConfigKey;
      assert i <= i' && i' <= i;
    }
  }

  /** `_make_params`: the entries common to both operations. */
  function DownloadParams(ctx: RequestContext, imageId: string, srPath: string, uuidStack: seq<string>): Params {
    Params(imageId, srPath, IdentityHeaders(ctx), DownloadArgs(uuidStack))
  }

  function UploadParams(ctx: RequestContext, inst: Instance, imageId: string, srPath: string,
                        vdiUuids: seq<string>): Params {
    Params(imageId, srPath, IdentityHeaders(ctx), UploadArgs(vdiUuids, UploadProperties(inst)))
  }

  /** The shuffle's permutation fits the pool the configuration yields. */
  predicate ShuffleFits(cfg: GlanceConfig, perm: seq<nat>) {
    ApiServers(cfg.store).Pool? ==> IsPermutation(perm, |ApiServers(cfg.store).endpoints|)
  }

  /** `_call_glance_plugin`, stated declaratively: the retry loop over the
      shuffled pool, with the session's outcome as the store's result.
      This function and `Download`/`Upload` are the specifications the
      methods below are proved against; the lemmas about the store reason
      about them, since a lemma cannot call the loop method. */
  function GlanceCall(cfg: GlanceConfig, fn: string, params: Params, perm: seq<nat>,
                      respond: nat -> Outcome): Transfer<string>
    requires ShuffleFits(cfg, perm)
  {
    match ApiServers(cfg.store)
    case PoolError(e) => Transfer([], [], [], Err(InvalidApiServer(e)))
    case Pool(pool) =>
      var t := RetryTrace(PluginName, fn, cfg.numRetries, Shuffle(pool, perm), params, respond);
      Transfer(t.calls, t.log, t.sleeps,
        match t.result
        case Done(p) => Ok(p)
        case Fatal(f) => Err(PluginRaised(f))
        case RetriesExceeded(n) => Err(PluginRetriesExceeded(n)))
  }

  /** The session's "retries exceeded" becomes the operation's own error;
      every other result passes through. */
  function GiveUpAs<T>(r: Result<T>, giveUp: ImageError): Result<T> {
    if r.Err? && r.error.PluginRetriesExceeded? then Err(giveUp) else r
  }

  /** `download_image`, stated declaratively. */
  function Download(cfg: GlanceConfig, ctx: RequestContext, imageId: string, srPath: string,
                    uuidStack: seq<string>, perm: seq<nat>, respond: nat -> Outcome): Transfer<string>
    requires ShuffleFits(cfg, perm)
  {
    var t := GlanceCall(cfg, DownloadFn, DownloadParams(ctx, imageId, srPath, uuidStack), perm, respond);
    Transfer(t.calls, t.log, t.sleeps, GiveUpAs(t.result, CouldNotFetchImage(imageId)))
  }

  /** `upload_image`, stated declaratively; the plugin's return value is
      dropped. */
  function Upload(cfg: GlanceConfig, ctx: RequestContext, inst: Instance, vdiUuids: seq<string>,
                  imageId: string, srPath: string, perm: seq<nat>, respond: nat -> Outcome): Transfer<()>
    requires ShuffleFits(cfg, perm)
  {
    var t := GlanceCall(cfg, UploadFn, UploadParams(ctx, inst, imageId, srPath, vdiUuids), perm, respond);
    var r := GiveUpAs(t.result, CouldNotUploadImage(imageId));
    Transfer(t.calls, t.log, t.sleeps, if r.Ok? then Ok(()) else Err(r.error))
  }

  /** `_call_glance_plugin`: derive the pool, shuffle it, and run the
      session's retry loop with the endpoint-picking callback. */
  method CallGlancePlugin(cfg: GlanceConfig, fn: string, params: Params, perm: seq<nat>, respond: nat -> Outcome)
    returns (calls: seq<PluginCall<Params>>, log: seq<AttemptLog>, sleeps: seq<nat>, result: Result<string>)
    requires ShuffleFits(cfg, perm)
    ensures Transfer(calls, log, sleeps, result) == GlanceCall(cfg, fn, params, perm, respond)
  {
    match ApiServers(cfg.store) {
      case PoolError(e) =>
        calls, log, sleeps, result := [], [], [], Err(InvalidApiServer(e));
      case Pool(pool) =>
        var order := Shuffle(pool, perm);
        var outcome;
        calls, log, sleeps, outcome := CallPluginWithRetry(PluginName, fn, cfg.numRetries, order, params, respond);
        match outcome {
          case Done(p) => result := Ok(p);
          case Fatal(f) => result := Err(PluginRaised(f));
          case RetriesExceeded(n) => result := Err(PluginRetriesExceeded(n));
        }
    }
  }

  /** `download_image`: fetch the image through `download_vhd`. */
  method DownloadImage(cfg: GlanceConfig, ctx: RequestContext, imageId: string, srPath: string,
                       uuidStack: seq<string>, perm: seq<nat>, respond: nat -> Outcome)
    returns (calls: seq<PluginCall<Params>>, log: seq<AttemptLog>, sleeps: seq<nat>, result: Result<string>)
    requires ShuffleFits(cfg, perm)
    ensures Transfer(calls, log, sleeps, result) == Download(cfg, ctx, imageId, srPath, uuidStack, perm, respond)
  {
    var params := DownloadParams(ctx, imageId, srPath, uuidStack);
    calls, log, sleeps, result := CallGlancePlugin(cfg, DownloadFn, params, perm, respond);
    if result.Err? && result.error.PluginRetriesExceeded? {
      result := Err(CouldNotFetchImage(imageId));
    }
  }

  /** `upload_image`: send the instance's disks through `upload_vhd`. */
  method UploadImage(cfg: GlanceConfig, ctx: RequestContext, inst: Instance, vdiUuids: seq<string>,
                     imageId: string, srPath: string, perm: seq<nat>, respond: nat -> Outcome)
    returns (calls: seq<PluginCall<Params>>, log: seq<AttemptLog>, sleeps: seq<nat>, result: Result<()>)
    requires ShuffleFits(cfg, perm)
    ensures Transfer(calls, log, sleeps, result) == Upload(cfg, ctx, inst, vdiUuids, imageId, srPath, perm, respond)
  {
    var params := UploadParams(ctx, inst, imageId, srPath, vdiUuids);
    var r;
    calls, log, sleeps, r := CallGlancePlugin(cfg, UploadFn, params, perm, respond);
    if r.Ok? {
      result := Ok(());
    } else if r.error.PluginRetriesExceeded? {
      result := Err(CouldNotUploadImage(imageId));
    } else {
      result := Err(r.error);
    }
  }

  /** On a usable pool, a download is the session's retry loop over the
      shuffled pool: the same calls, log and sleeps; a success returns the
      plugin's value, a failure that is not transient is raised as it came,
      and running out of attempts becomes `CouldNotFetchImage`. */
  lemma DownloadOnPool(cfg: GlanceConfig, ctx: RequestContext, imageId: string, srPath: string,
                       uuidStack: seq<string>, perm: seq<nat>, respond: nat -> Outcome, pool: seq<Endpoint>)
    requires ApiServers(cfg.store) == Pool(pool) && IsPermutation(perm, |pool|)
    ensures ShuffleFits(cfg, perm)
    ensures var t := Download(cfg, ctx, imageId, srPath, uuidStack, perm, respond);
      var r := RetryTrace(PluginName, DownloadFn, cfg.numRetries, Shuffle(pool, perm),
                          DownloadParams(ctx, imageId, srPath, uuidStack), respond);
      && t.calls == r.calls && t.log == r.log && t.sleeps == r.sleeps
      && (r.result.Done? ==> t.result == Ok(r.result.payload))
      && (r.result.Fatal? ==> t.result == Err(PluginRaised(r.result.failure)))
      && (r.result.RetriesExceeded? ==> t.result == Err(CouldNotFetchImage(imageId)))
  {
  }

  /** On a usable pool, an upload is the session's retry loop over the
      shuffled pool; the plugin's return value is dropped, a failure that
      is not transient is raised as it came, and running out of attempts
      becomes `CouldNotUploadImage`. */
  lemma UploadOnPool(cfg: GlanceConfig, ctx: RequestContext, inst: Instance, vdiUuids: seq<string>,
                     imageId: string, srPath: string, perm: seq<nat>, respond: nat -> Outcome, pool: seq<Endpoint>)
    requires ApiServers(cfg.store) == Pool(pool) && IsPermutation(perm, |pool|)
    ensures ShuffleFits(cfg, perm)
    ensures var t := Upload(cfg, ctx, inst, vdiUuids, imageId, srPath, perm, respond);
      var r := RetryTrace(PluginName, UploadFn, cfg.numRetries, Shuffle(pool, perm),
                          UploadParams(ctx, inst, imageId, srPath, vdiUuids), respond);
      && t.calls == r.calls && t.log == r.log && t.sleeps == r.sleeps
      && (r.result.Done? ==> t.result == Ok(()))
      && (r.result.Fatal? ==> t.result == Err(PluginRaised(r.result.failure)))
      && (r.result.RetriesExceeded? ==> t.result == Err(CouldNotUploadImage(imageId)))
  {
  }

  /** The plugin answers every one of the first `num_retries + 1` calls
      with a transient failure. */
  predicate AllTransient(cfg: GlanceConfig, respond: nat -> Outcome) {
    forall k :: 0 <= k <= cfg.numRetries ==> Continues(respond(k))
  }

  /** A download with a usable pool gives up with `CouldNotFetchImage`
      exactly when every attempt failed transiently, after all
      `num_retries + 1` calls and the whole sleep schedule. It never
      surfaces the session's own "retries exceeded", nor a transient
      failure. */
  lemma DownloadGivesUp(cfg: GlanceConfig, ctx: RequestContext, imageId: string, srPath: string,
                        uuidStack: seq<string>, perm: seq<nat>, respond: nat -> Outcome)
    requires ShuffleFits(cfg, perm) && ApiServers(cfg.store).Pool?
    ensures var t := Download(cfg, ctx, imageId, srPath, uuidStack, perm, respond);
      && (t.result == Err(CouldNotFetchImage(imageId)) <==> AllTransient(cfg, respond))
      && (AllTransient(cfg, respond) ==> |t.calls| == cfg.numRetries + 1 && t.sleeps == Sleeps(cfg.numRetries))
      && !(t.result.Err? && t.result.error.PluginRetriesExceeded?)
      && (t.result.Err? && t.result.error.PluginRaised? ==> !IsRetryable(t.result.error.failure))
  {
    var pool := ApiServers(cfg.store).endpoints;
    var order := Shuffle(pool, perm);
    ExhaustedIff(PluginName, DownloadFn, cfg.numRetries, order,
                 DownloadParams(ctx, imageId, srPath, uuidStack), respond);
    FatalIsNotTransient(PluginName, DownloadFn, cfg.numRetries, order,
                        DownloadParams(ctx, imageId, srPath, uuidStack), respond);
  }

  /** An upload with a usable pool gives up with `CouldNotUploadImage`
      exactly when every attempt failed transiently, after all
      `num_retries + 1` calls and the whole sleep schedule; a failure it
      raises is never a transient one. */
  lemma UploadGivesUp(cfg: GlanceConfig, ctx: RequestContext, inst: Instance, vdiUuids: seq<string>,
                      imageId: string, srPath: string, perm: seq<nat>, respond: nat -> Outcome)
    requires ShuffleFits(cfg, perm) && ApiServers(cfg.store).Pool?
    ensures var t := Upload(cfg, ctx, inst, vdiUuids, imageId, srPath, perm, respond);
      && (t.result == Err(CouldNotUploadImage(imageId)) <==> AllTransient(cfg, respond))
      && (AllTransient(cfg, respond) ==> |t.calls| == cfg.numRetries + 1 && t.sleeps == Sleeps(cfg.numRetries))
      && !(t.result.Err? && t.result.error.PluginRetriesExceeded?)
      && (t.result.Err? && t.result.error.PluginRaised? ==> !IsRetryable(t.result.error.failure))
  {
    var pool := ApiServers(cfg.store).endpoints;
    var order := Shuffle(pool, perm);
    ExhaustedIff(PluginName, UploadFn, cfg.numRetries, order,
                 UploadParams(ctx, inst, imageId, srPath, vdiUuids), respond);
    FatalIsNotTransient(PluginName, UploadFn, cfg.numRetries, order,
                        UploadParams(ctx, inst, imageId, srPath, vdiUuids), respond);
  }

  /** Every upload attempt sends the same parameter map, defaulted
      properties included, to `glance.upload_vhd`, at the endpoint the
      shuffled pool gives that attempt. */
  lemma UploadParamsFixed(cfg: GlanceConfig, ctx: RequestContext, inst: Instance, vdiUuids: seq<string>,
                          imageId: string, srPath: string, perm: seq<nat>, respond: nat -> Outcome, k: nat)
    requires ShuffleFits(cfg, perm) && ApiServers(cfg.store).Pool?
    requires k < |Upload(cfg, ctx, inst, vdiUuids, imageId, srPath, perm, respond).calls|
    ensures var pool := ApiServers(cfg.store).endpoints;
      Upload(cfg, ctx, inst, vdiUuids, imageId, srPath, perm, respond).calls[k]
        == PluginCall(PluginName, UploadFn, pool[perm[k % |pool|]],
                      Params(imageId, srPath, IdentityHeaders(ctx),
                             UploadArgs(vdiUuids, Properties(AutoDiskConfigProperty(inst),
                                                             OsTypeProperty(inst.osType)))))
  {
    var pool := ApiServers(cfg.store).endpoints;
    var order := Shuffle(pool, perm);
    var params := UploadParams(ctx, inst, imageId, srPath, vdiUuids);
    var t := RetryTrace(PluginName, UploadFn, cfg.numRetries, order, params, respond);
    assert Upload(cfg, ctx, inst, vdiUuids, imageId, srPath, perm, respond).calls == t.calls;
    assert t.calls[k] == PluginCall(PluginName, UploadFn, order[k % |order|], params);
  }

  /** Every download attempt sends the same parameter map to
      `glance.download_vhd`, at the endpoint the shuffled pool gives that
      attempt. */
  lemma DownloadParamsFixed(cfg: GlanceConfig, ctx: RequestContext, imageId: string, srPath: string,
                            uuidStack: seq<string>, perm: seq<nat>, respond: nat -> Outcome, k: nat)
    requires ShuffleFits(cfg, perm) && ApiServers(cfg.store).Pool?
    requires k < |Download(cfg, ctx, imageId, srPath, uuidStack, perm, respond).calls|
    ensures var pool := ApiServers(cfg.store).endpoints;
      Download(cfg, ctx, imageId, srPath, uuidStack, perm, respond).calls[k]
        == PluginCall(PluginName, DownloadFn, pool[perm[k % |pool|]],
                      Params(imageId, srPath, IdentityHeaders(ctx), DownloadArgs(uuidStack)))
  {
    var pool := ApiServers(cfg.store).endpoints;
    var order := Shuffle(pool, perm);
    var params := DownloadParams(ctx, imageId, srPath, uuidStack);
    var t := RetryTrace(PluginName, DownloadFn, cfg.numRetries, order, params, respond);
    assert Download(cfg, ctx, imageId, srPath, uuidStack, perm, respond).calls == t.calls;
    assert t.calls[k] == PluginCall(PluginName, DownloadFn, order[k % |order|], params);
  }
}
