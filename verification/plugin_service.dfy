/** The handler that runs inside a plugin process: registration with the
    dashboard, dispatch of each remote call to the optional user handler,
    content routing, and the plugin's web-asset registry.

    The handler's configuration never changes after construction and holds
    the user handlers, the dashboard-client factory and the router, all
    modelled as function values.  Only the dashboard client and the asset
    registry change; they form `HandlerState`.
 */
module PluginService {
  import opened Results
  import opened GoStrings
  import opened GoSlices
  import opened Octant

  /** A Kubernetes object handed to the print and status calls. */
  datatype Object = Object(apiVersion: string, kind: string, name: string)

  /** `plugin.Capabilities`, reduced to the names of what the plugin supports. */
  datatype Capabilities = Capabilities(supports: seq<string>)

  /** `plugin.Metadata`; `ZeroMetadata` is Go's `plugin.Metadata{}`. */
  datatype Metadata = Metadata(name: string, description: string, capabilities: Capabilities)

  const ZeroMetadata := Metadata("", "", Capabilities([]))

  /** The callback client a plugin uses to reach the dashboard API. */
  datatype DashboardClient = DashboardClient(apiAddress: string, id: nat)

  /** The part every typed request shares: the plugin's name. */
  datatype BaseRequest = BaseRequest(pluginName: string)

  /** Requests handed to the user handlers; `dashboardClient` is `None` while
      the plugin is not registered. */
  datatype PrintRequest = PrintRequest(base: BaseRequest, dashboardClient: Option<DashboardClient>, target: Object)
  datatype ActionRequest = ActionRequest(base: BaseRequest, dashboardClient: Option<DashboardClient>, payload: Payload)
  datatype NavigationRequest = NavigationRequest(base: BaseRequest, dashboardClient: Option<DashboardClient>)
  datatype Request = Request(base: BaseRequest, dashboardClient: Option<DashboardClient>, path: string)

  /** Responses, each with the zero value Go returns when no handler is set. */
  datatype PrintResponse = PrintResponse(config: seq<string>, status: seq<string>, items: seq<string>)
  const ZeroPrintResponse := PrintResponse([], [], [])

  datatype TabResponse = TabResponse(tab: Option<string>)
  const ZeroTabResponse := TabResponse(None)

  datatype ObjectStatusResponse = ObjectStatusResponse(status: seq<string>)
  const ZeroObjectStatusResponse := ObjectStatusResponse([])

  datatype Navigation = Navigation(title: string, path: string, children: seq<Navigation>)
  const ZeroNavigation := Navigation("", "", [])

  /** The user-supplied handlers; `None` is a nil handler function. */
  datatype HandlerFuncs = HandlerFuncs(
    onPrint: Option<PrintRequest -> Result<PrintResponse>>,
    onPrintTab: Option<PrintRequest -> Result<TabResponse>>,
    onObjectStatus: Option<PrintRequest -> Result<ObjectStatusResponse>>,
    onHandleAction: Option<ActionRequest -> Result<()>>,
    onNavigation: Option<NavigationRequest -> Result<Navigation>>)

  /** A content route's handler function. */
  type ContentHandler = Request -> Result<ContentResponse>

  /** The fields of `Handler` that are set once at construction.
      `capabilities` and `dashboardFactory` may be nil; `router` is
      `Router.Match`. */
  datatype HandlerConfig = HandlerConfig(
    funcs: HandlerFuncs,
    name: string,
    description: string,
    capabilities: Option<Capabilities>,
    dashboardFactory: Option<string -> Result<DashboardClient>>,
    router: string -> Option<ContentHandler>)

  /** `plugin.WebResource` and the registry entry that adds its content. */
  datatype WebResource = WebResource(path: string, mimeType: string)
  datatype WebResourceContent = WebResourceContent(resource: WebResource, content: seq<byte>)

  /** The zero values the registry's pre-sized slices are filled with. */
  const ZeroWebResource := WebResource("", "")
  const Placeholder := WebResourceContent(ZeroWebResource, [])

  /** The fields of `Handler` that change: the dashboard client (`None` until
      registration) and the asset registry (`None` is the nil slice). */
  datatype HandlerState = HandlerState(
    dashboardClient: Option<DashboardClient>,
    webResources: Option<seq<WebResourceContent>>)

  /** A freshly constructed handler: unregistered, no assets. */
  const InitialState := HandlerState(None, None)

  /** The registry as a sequence; the nil slice is empty. */
  function Entries(st: HandlerState): seq<WebResourceContent> {
    if st.webResources.Some? then st.webResources.value else []
  }

  /** `Validate`: a handler is usable exactly when it can build a client. */
  function Validate(cfg: HandlerConfig): (r: Result<()>)
    ensures r.Failure? <==> cfg.dashboardFactory.None?
  {
    if cfg.dashboardFactory.None? then Failure else Success(())
  }

  /** The outcome of `Register`: the metadata returned, whether an error was
      returned, and the handler state afterwards. */
  datatype Registration = Registration(metadata: Metadata, failed: bool, state: HandlerState)

  /** `Register`: builds the dashboard client for `address` and stores it.
      The factory is always called, so it must be set (`Validate` checks
      it); the capabilities pointer is dereferenced only once the factory
      has succeeded. */
  function Register(cfg: HandlerConfig, st: HandlerState, address: string): (r: Registration)
    requires cfg.dashboardFactory.Some?
    requires cfg.dashboardFactory.value(address).Success? ==> cfg.capabilities.Some?
    ensures r.failed <==> cfg.dashboardFactory.value(address).Failure?
    ensures r.failed ==> r.metadata == ZeroMetadata && r.state == st
    ensures !r.failed ==>
              && r.state == st.(dashboardClient := Some(cfg.dashboardFactory.value(address).value))
              && r.metadata == Metadata(cfg.name, cfg.description, cfg.capabilities.value)
    ensures r.state.webResources == st.webResources
  {
    match cfg.dashboardFactory.value(address)
    case Failure => Registration(ZeroMetadata, true, st)
    case Success(client) =>
      Registration(Metadata(cfg.name, cfg.description, cfg.capabilities.value), false,
                   st.(dashboardClient := Some(client)))
  }

  /** The common shape of every optional capability: no handler gives the
      zero value and no error; otherwise the handler's result, unchanged. */
  function Dispatch<Req, Resp>(handler: Option<Req -> Result<Resp>>, request: Req, zero: Resp): (r: Result<Resp>)
    ensures handler.None? ==> r == Success(zero)
    ensures handler.Some? ==> r == handler.value(request)
  {
    match handler
    case None => Success(zero)
    case Some(f) => f(request)
  }

  /** The request the print-like calls build for `obj`. */
  function PrintRequestFor(cfg: HandlerConfig, st: HandlerState, obj: Object): PrintRequest {
    PrintRequest(BaseRequest(cfg.name), st.dashboardClient, obj)
  }

  /** `Print`. */
  function Print(cfg: HandlerConfig, st: HandlerState, obj: Object): (r: Result<PrintResponse>)
    ensures cfg.funcs.onPrint.None? ==> r == Success(ZeroPrintResponse)
    ensures cfg.funcs.onPrint.Some? ==>
              r == cfg.funcs.onPrint.value(PrintRequest(BaseRequest(cfg.name), st.dashboardClient, obj))
  {
    Dispatch(cfg.funcs.onPrint, PrintRequestFor(cfg, st, obj), ZeroPrintResponse)
  }

  /** `PrintTab`. */
  function PrintTab(cfg: HandlerConfig, st: HandlerState, obj: Object): (r: Result<TabResponse>)
    ensures cfg.funcs.onPrintTab.None? ==> r == Success(ZeroTabResponse)
    ensures cfg.funcs.onPrintTab.Some? ==>
              r == cfg.funcs.onPrintTab.value(PrintRequest(BaseRequest(cfg.name), st.dashboardClient, obj))
  {
    Dispatch(cfg.funcs.onPrintTab, PrintRequestFor(cfg, st, obj), ZeroTabResponse)
  }

  /** `ObjectStatus`. */
  function ObjectStatus(cfg: HandlerConfig, st: HandlerState, obj: Object): (r: Result<ObjectStatusResponse>)
    ensures cfg.funcs.onObjectStatus.None? ==> r == Success(ZeroObjectStatusResponse)
    ensures cfg.funcs.onObjectStatus.Some? ==>
              r == cfg.funcs.onObjectStatus.value(PrintRequest(BaseRequest(cfg.name), st.dashboardClient, obj))
  {
    Dispatch(cfg.funcs.onObjectStatus, PrintRequestFor(cfg, st, obj), ZeroObjectStatusResponse)
  }

  /** `HandleAction`: the result carries only the error, if any. */
  function HandleAction(cfg: HandlerConfig, st: HandlerState, payload: Payload): (r: Result<()>)
    ensures cfg.funcs.onHandleAction.None? ==> r == Success(())
    ensures cfg.funcs.onHandleAction.Some? ==>
              r == cfg.funcs.onHandleAction.value(ActionRequest(BaseRequest(cfg.name), st.dashboardClient, payload))
  {
    Dispatch(cfg.funcs.onHandleAction, ActionRequest(BaseRequest(cfg.name), st.dashboardClient, payload), ())
  }

  /** `Navigation`. */
  function GetNavigation(cfg: HandlerConfig, st: HandlerState): (r: Result<Navigation>)
    ensures cfg.funcs.onNavigation.None? ==> r == Success(ZeroNavigation)
    ensures cfg.funcs.onNavigation.Some? ==>
              r == cfg.funcs.onNavigation.value(NavigationRequest(BaseRequest(cfg.name), st.dashboardClient))
  {
    Dispatch(cfg.funcs.onNavigation, NavigationRequest(BaseRequest(cfg.name), st.dashboardClient), ZeroNavigation)
  }

  /** `Content`: a router miss is an empty page, not an error; a hit runs the
      matched function on a request for exactly `contentPath`. */
  function Content(cfg: HandlerConfig, st: HandlerState, contentPath: string): (r: Result<ContentResponse>)
    ensures cfg.router(contentPath).None? ==> r == Success(EmptyContentResponse)
    ensures cfg.router(contentPath).Some? ==>
              r == cfg.router(contentPath).value(Request(BaseRequest(cfg.name), st.dashboardClient, contentPath))
  {
    match cfg.router(contentPath)
    case None => Success(EmptyContentResponse)
    case Some(handlerFunc) => handlerFunc(Request(BaseRequest(cfg.name), st.dashboardClient, contentPath))
  }

  /** A capability without a handler never fails, whatever its input. */
  lemma MissingHandlersNeverFail(cfg: HandlerConfig, st: HandlerState, obj: Object, payload: Payload)
    requires cfg.funcs == HandlerFuncs(None, None, None, None, None)
    ensures Print(cfg, st, obj).Success? && PrintTab(cfg, st, obj).Success?
    ensures ObjectStatus(cfg, st, obj).Success? && HandleAction(cfg, st, payload).Success?
    ensures GetNavigation(cfg, st).Success?
  {
  }

  /** Every call made before a successful registration hands the user
      handler no dashboard client; every call after it hands over the client
      the factory built. */
  lemma RequestsCarryRegisteredClient(cfg: HandlerConfig, address: string, obj: Object, path: string)
    requires cfg.dashboardFactory.Some?
    requires cfg.dashboardFactory.value(address).Success? ==> cfg.capabilities.Some?
    ensures PrintRequestFor(cfg, InitialState, obj).dashboardClient == None
    ensures var reg := Register(cfg, InitialState, address);
            !reg.failed ==>
              && PrintRequestFor(cfg, reg.state, obj).dashboardClient
                   == Some(cfg.dashboardFactory.value(address).value)
              && (cfg.router(path).Some? ==>
                    Content(cfg, reg.state, path)
                      == cfg.router(path).value(Request(BaseRequest(cfg.name),
                                                        Some(cfg.dashboardFactory.value(address).value), path)))
  {
  }

  /** The registry entry `AddAsset` builds: the mime type comes from the
      path's extension through the (unmodelled) system mime table. */
  function AssetEntry(path: string, content: seq<byte>, typeByExtension: string -> string): WebResourceContent {
    WebResourceContent(WebResource(path, typeByExtension(Ext(path))), content)
  }

  /** `AddAsset`: appends the asset.  The first call finds the nil slice and
      replaces it by a one-element slice holding a zero-valued placeholder
      before appending, so the registry goes from 0 to 2 entries; later calls
      add one entry each.  The Go error result is always nil. */
  function AddAsset(st: HandlerState, path: string, content: seq<byte>, typeByExtension: string -> string)
    : (r: HandlerState)
    ensures r.webResources.Some? && r.dashboardClient == st.dashboardClient
  {
    var entry := AssetEntry(path, content, typeByExtension);
    match st.webResources
    case None => HandlerState(st.dashboardClient, Some(Make(1, Placeholder) + [entry]))
    case Some(entries) => HandlerState(st.dashboardClient, Some(entries + [entry]))
  }

  /** What `AddAsset` does to the registry: the new entry goes last, after a
      placeholder on a nil registry and after every earlier entry otherwise. */
  lemma AddAssetAppends(st: HandlerState, path: string, content: seq<byte>, typeByExtension: string -> string)
    ensures var after := Entries(AddAsset(st, path, content, typeByExtension));
            && |after| == (if st.webResources.None? then 2 else |Entries(st)| + 1)
            && after[|after| - 1] == AssetEntry(path, content, typeByExtension)
            && after[|after| - 1].resource.mimeType == typeByExtension(Ext(path))
            && (st.webResources.None? ==> after[0] == Placeholder)
            && after[..|Entries(st)|] == Entries(st)
  {
    var entry := AssetEntry(path, content, typeByExtension);
    if st.webResources.None? {
      assert Make(1, Placeholder) + [entry] == [Placeholder, entry];
    } else {
      assert (Entries(st) + [entry])[..|Entries(st)|] == Entries(st);
    }
  }

  /** A registry that is either nil or starts with the placeholder. */
  predicate SeededOrNil(st: HandlerState) {
    st.webResources.None? || (|st.webResources.value| > 0 && st.webResources.value[0] == Placeholder)
  }

  /** `AddAsset` keeps the placeholder at the front. */
  lemma AddAssetKeepsPlaceholder(st: HandlerState, path: string, content: seq<byte>, typeByExtension: string -> string)
    requires SeededOrNil(st)
    ensures SeededOrNil(AddAsset(st, path, content, typeByExtension))
    ensures Entries(AddAsset(st, path, content, typeByExtension))[0] == Placeholder
  {
    AddAssetAppends(st, path, content, typeByExtension);
  }

  /** One asset to add: its path and content. */
  datatype Asset = Asset(path: string, content: seq<byte>)

  /** The state after adding `assets` in order. */
  function AddAll(st: HandlerState, assets: seq<Asset>, typeByExtension: string -> string): HandlerState
    decreases |assets|
  {
    if |assets| == 0 then st
    else
      var last := assets[|assets| - 1];
      AddAsset(AddAll(st, assets[..|assets| - 1], typeByExtension), last.path, last.content, typeByExtension)
  }

  /** Starting from a fresh handler, adding n >= 1 assets leaves n + 1
      entries: the placeholder, then every asset in the order added. */
  lemma {:induction false} RegistryAfterAdds(assets: seq<Asset>, typeByExtension: string -> string)
    requires |assets| > 0
    ensures var entries := Entries(AddAll(InitialState, assets, typeByExtension));
            && |entries| == |assets| + 1
            && entries[0] == Placeholder
            && forall i :: 0 <= i < |assets| ==>
                 entries[i + 1] == AssetEntry(assets[i].path, assets[i].content, typeByExtension)
    decreases |assets|
  {
    var init := assets[..|assets| - 1];
    var last := assets[|assets| - 1];
    var before := AddAll(InitialState, init, typeByExtension);
    var added := AddAsset(before, last.path, last.content, typeByExtension);
    AddAssetAppends(before, last.path, last.content, typeByExtension);
    assert AddAll(InitialState, assets, typeByExtension) == added;
    if |init| == 0 {
      assert before == InitialState;
    } else {
      RegistryAfterAdds(init, typeByExtension);
      var earlier := Entries(before);
      var after := Entries(added);
      assert before.webResources.Some? && |earlier| == |init| + 1;
      assert after[..|earlier|] == earlier;
      forall i | 0 <= i < |init|
        ensures after[i + 1] == AssetEntry(assets[i].path, assets[i].content, typeByExtension)
      {
        assert after[i + 1] == earlier[i + 1];
        assert assets[i] == init[i];
      }
    }
  }

  /** `GetResources`: a slice pre-sized to the registry's length with zero
      values, followed by every entry's resource in registry order. */
  method GetResources(st: HandlerState) returns (resp: seq<WebResource>)
    ensures |resp| == 2 * |Entries(st)|
    ensures forall i :: 0 <= i < |Entries(st)| ==> resp[i] == ZeroWebResource
    ensures forall i :: 0 <= i < |Entries(st)| ==> resp[|Entries(st)| + i] == Entries(st)[i].resource
  {
    var entries := Entries(st);
    resp := Make(|entries|, ZeroWebResource);
    for i := 0 to |entries|
      invariant |resp| == |entries| + i
      invariant forall k :: 0 <= k < |entries| ==> resp[k] == ZeroWebResource
      invariant forall k :: 0 <= k < i ==> resp[|entries| + k] == entries[k].resource
    {
      resp := resp + [entries[i].resource];
    }
  }

  /** The resources of `entries` whose mime type is `mimeType`, in order. */
  function OfType(entries: seq<WebResourceContent>, mimeType: string): (r: seq<WebResource>)
    ensures |r| <= |entries|
    ensures forall k :: 0 <= k < |r| ==> r[k].mimeType == mimeType
    decreases |entries|
  {
    if |entries| == 0 then []
    else
      var last := entries[|entries| - 1];
      OfType(entries[..|entries| - 1], mimeType) + (if last.resource.mimeType == mimeType then [last.resource] else [])
  }

  /** A resource is selected exactly when it has the mime type and some entry
      carries it. */
  lemma {:induction false} OfTypeMembers(entries: seq<WebResourceContent>, mimeType: string, w: WebResource)
    ensures w in OfType(entries, mimeType) <==>
              w.mimeType == mimeType && exists i :: 0 <= i < |entries| && entries[i].resource == w
    decreases |entries|
  {
    if |entries| > 0 {
      var init := entries[..|entries| - 1];
      OfTypeMembers(init, mimeType, w);
      if w.mimeType == mimeType && exists i :: 0 <= i < |entries| && entries[i].resource == w {
        var i :| 0 <= i < |entries| && entries[i].resource == w;
        if i < |init| {
          assert init[i] == entries[i];
        }
      }
      if exists i :: 0 <= i < |init| && init[i].resource == w {
        var i :| 0 <= i < |init| && init[i].resource == w;
        assert entries[i] == init[i];
      }
    }
  }

  /** `GetResourcesByType`: the same zero-valued prefix as `GetResources`,
      followed only by the resources of the requested mime type. */
  method GetResourcesByType(st: HandlerState, mimeType: string) returns (resp: seq<WebResource>)
    ensures |resp| >= |Entries(st)|
    ensures forall i :: 0 <= i < |Entries(st)| ==> resp[i] == ZeroWebResource
    ensures resp[|Entries(st)|..] == OfType(Entries(st), mimeType)
  {
    var entries := Entries(st);
    var zeros := Make(|entries|, ZeroWebResource);
    resp := zeros;
    for i := 0 to |entries|
      invariant resp == zeros + OfType(entries[..i], mimeType)
    {
      assert entries[..i + 1][..i] == entries[..i];
      if entries[i].resource.mimeType == mimeType {
        resp := resp + [entries[i].resource];
      }
    }
    assert entries[..|entries|] == entries;
  }

  /** The index of the first entry at or after `from` whose path is `path`. */
  function FirstWithPath(entries: seq<WebResourceContent>, path: string, from: nat): (r: Option<nat>)
    requires from <= |entries|
    ensures r.None? <==> forall i :: from <= i < |entries| ==> entries[i].resource.path != path
    ensures r.Some? ==> from <= r.value < |entries| && entries[r.value].resource.path == path
                        && forall j :: from <= j < r.value ==> entries[j].resource.path != path
    decreases |entries| - from
  {
    if from == |entries| then None
    else if entries[from].resource.path == path then Some(from)
    else FirstWithPath(entries, path, from + 1)
  }

  /** `GetResource`: the content of the first entry whose path is `path`;
      an error exactly when no entry has that path. */
  function GetResource(st: HandlerState, path: string): (r: Result<seq<byte>>)
    ensures r.Failure? <==> forall i :: 0 <= i < |Entries(st)| ==> Entries(st)[i].resource.path != path
    ensures r.Success? ==> exists i :: 0 <= i < |Entries(st)| && Entries(st)[i].resource.path == path
                                       && Entries(st)[i].content == r.value
                                       && forall j :: 0 <= j < i ==> Entries(st)[j].resource.path != path
  {
    match FirstWithPath(Entries(st), path, 0)
    case None => Failure
    case Some(i) => Success(Entries(st)[i].content)
  }

  /** An asset added under a path no earlier entry uses is found again with
      exactly the content added.  On a fresh registry the path must not be
      "", which the placeholder answers first. */
  lemma GetAfterAdd(st: HandlerState, path: string, content: seq<byte>, typeByExtension: string -> string)
    requires forall i :: 0 <= i < |Entries(st)| ==> Entries(st)[i].resource.path != path
    requires st.webResources.None? ==> path != ""
    ensures GetResource(AddAsset(st, path, content, typeByExtension), path) == Success(content)
  {
    AddAssetAppends(st, path, content, typeByExtension);
    var after := Entries(AddAsset(st, path, content, typeByExtension));
    forall j | 0 <= j < |after| - 1
      ensures after[j].resource.path != path
    {
      if st.webResources.Some? {
        assert after[j] == Entries(st)[j];
      }
    }
  }

  /** Once anything has been added, "" names the placeholder: it is found,
      with empty content, whatever was added under "". */
  lemma EmptyPathFindsPlaceholder(st: HandlerState)
    requires SeededOrNil(st) && st.webResources.Some?
    ensures GetResource(st, "") == Success([])
  {
  }
}
