/** The web-resources event generator: it lists, for the stylesheets and the
    scripts that plugins contribute, the URLs under which the dashboard
    serves them.  The plugin manager's `PluginWebResourcesByType` is not
    modelled; it is the `lookup` parameter.
 */
module PluginResource {
  import opened Results
  import opened Octant
  import opened GoSlices

  /** An asset a plugin contributed, as the plugin manager reports it. */
  datatype PluginWebResource = PluginWebResource(pluginName: string, path: string)

  /** The lookup of every plugin asset of one mime type. */
  type ResourceLookup = string -> Result<seq<PluginWebResource>>

  const AssetsRoot := "/api/assets/plugin/"
  const PathSegment := "/path/"
  const CssMimeType := "text/css"
  const JsMimeType := "application/javascript"

  /** `Name()` of the generator. */
  const Name := "webResources"

  /** The URL the dashboard serves a plugin asset under. */
  function AssetUrl(resource: PluginWebResource): string {
    AssetsRoot + resource.pluginName + PathSegment + resource.path
  }

  /** Two ways of writing one string as a slash-free head followed by a tail
      that starts with a slash are the same way. */
  lemma SplitAtFirstSlash(x: string, y: string, x': string, y': string)
    requires x + y == x' + y'
    requires '/' !in x && '/' !in x'
    requires |y| > 0 && y[0] == '/' && |y'| > 0 && y'[0] == '/'
    ensures x == x' && y == y'
  {
    assert x == (x + y)[..|x|] == (x' + y')[..|x'|] == x';
    assert y == (x + y)[|x|..] == (x' + y')[|x'|..] == y';
  }

  /** Distinct assets of plugins whose names have no `/` get distinct URLs:
      the plugin name ends at the first `/` after the root, and the rest
      after the path segment is the asset's path. */
  lemma AssetUrlInjective(a: PluginWebResource, b: PluginWebResource)
    requires '/' !in a.pluginName && '/' !in b.pluginName
    requires AssetUrl(a) == AssetUrl(b)
    ensures a == b
  {
    var ta := PathSegment + a.path;
    var tb := PathSegment + b.path;
    assert AssetUrl(a) == AssetsRoot + (a.pluginName + ta);
    assert AssetUrl(b) == AssetsRoot + (b.pluginName + tb);
    assert a.pluginName + ta == AssetUrl(a)[|AssetsRoot|..];
    assert b.pluginName + tb == AssetUrl(b)[|AssetsRoot|..];
    SplitAtFirstSlash(a.pluginName, ta, b.pluginName, tb);
    assert a.path == ta[|PathSegment|..] == tb[|PathSegment|..] == b.path;
  }

  /** `listResources`: nothing when the lookup fails; otherwise a slice
      pre-sized with one empty string per resource, followed by the URL of
      every resource in the order the lookup gave them. */
  function ListResources(lookup: ResourceLookup, mimeType: string): (r: seq<string>)
    ensures lookup(mimeType).Failure? ==> r == []
    ensures lookup(mimeType).Success? ==>
              var resources := lookup(mimeType).value;
              && |r| == 2 * |resources|
              && (forall i :: 0 <= i < |resources| ==> r[i] == "")
              && (forall i :: 0 <= i < |resources| ==> r[|resources| + i] == AssetUrl(resources[i]))
  {
    match lookup(mimeType)
    case Failure => []
    case Success(resources) =>
      Make(|resources|, "") + seq(|resources|, i requires 0 <= i < |resources| => AssetUrl(resources[i]))
  }

  /** `Event`: a web-resources event with the stylesheet and the script
      listings; it never fails, so no error is modelled. */
  function ResourcesEvent(lookup: ResourceLookup): (r: Event)
    ensures r.eventType == EventTypeWebResources && r.data.WebResourcesData?
    ensures r.data.css == ListResources(lookup, CssMimeType)
    ensures r.data.js == ListResources(lookup, JsMimeType)
  {
    Event(EventTypeWebResources,
          WebResourcesData(ListResources(lookup, CssMimeType), ListResources(lookup, JsMimeType)))
  }

  /** Every URL in a listing names an asset the lookup reported; the other
      entries are the empty padding. */
  lemma ListedUrlsComeFromLookup(lookup: ResourceLookup, mimeType: string, url: string)
    requires url in ListResources(lookup, mimeType) && url != ""
    ensures lookup(mimeType).Success?
    ensures exists i :: 0 <= i < |lookup(mimeType).value| && url == AssetUrl(lookup(mimeType).value[i])
  {
    var resources := lookup(mimeType).value;
    var r := ListResources(lookup, mimeType);
    var k :| 0 <= k < |r| && r[k] == url;
    assert k >= |resources|;
    assert url == AssetUrl(resources[k - |resources|]);
  }
}
