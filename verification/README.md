# Live content and plugin layer of the Octant dashboard, in Dafny

This project models four sequential pieces of the dashboard backend that keep
a connected browser's view up to date and let plugins extend it:

- **Content manager** (`internal/api/content_manager.go`). It regenerates the
  page at the session's content path. It strips the `/content/` prefix and
  then the owning module's name, and calls the module. A module's "not found"
  error rewrites the content path through the redirect rule and asks for an
  immediate rerun. The activation loop sends one content event per page
  generated. The three client requests `setContentPath`, `setNamespace` and
  `setQueryParams` each write one field of the session state.
- **Plugin handler** (`pkg/plugin/service/handler.go`). This is the adapter
  inside a plugin process. It covers registration with the dashboard, the
  five optional capabilities (a missing handler is a zero-valued success),
  content routing (a router miss is an empty page), and the web-asset
  registry with its exact slice quirks.
- **Plugin manager** (`internal/api/plugin_manager.go`). Its activation
  serializes the web-resources event and sends it only when the bytes differ
  from the ones it last sent.
- **Web-resources generator** (`internal/event/plugin_resource.go`). It
  builds the asset URL lists `/api/assets/plugin/<plugin>/path/<path>` for
  stylesheets and scripts.

Files:

- `results.dfy`: `Option` (Go nil) and `Result` (an error without its text).
- `go_strings.dfy`: `strings.TrimPrefix`, `filepath.Ext` and `make([]T, n)`.
- `octant.dfy`: content responses, events, request payloads and the
  request-handler table entry.
- `content_manager.dfy`, `plugin_service.dfy`, `plugin_manager.dfy`,
  `plugin_resource.dfy`: one module per source file.

Every collaborator whose code is not part of this model is a function value
passed in. This covers the module registry, a module's `Content` call,
`notFoundRedirectPath`, `FiltersToLabelSet`, `FiltersFromQueryParams`,
`payload.String`, `Router.Match`, `mime.TypeByExtension`, `json.Marshal`
and `PluginWebResourcesByType`. Nothing is assumed about them beyond being
functions. The one exception is the termination lemma, whose hypothesis says
that redirects shorten paths. `runUpdate` calls whatever
`contentGenerateFunc` the manager was built with, so `RunUpdate` takes the
generator as a parameter and `DefaultGenerator` is `generateContent`.

`runUpdate`'s redirect loop has no bound in the source. The model gives it
an explicit `fuel` bound and reports whether the loop ended on its own. It
then proves two things. First, suppose every redirect is empty or, once its
`/content/` prefix is stripped again, shorter than the path it came from.
Then the loop ends within `PathMeasure + 1` rounds, and more fuel changes
nothing (`RedirectLoopTerminates`). `PathMeasure` is 0 for the empty path
and otherwise one more than the length of the stripped path. Second, a
redirect back to the same path keeps the loop sending empty pages for as long
as it may run (`SelfRedirectNeverFinishes`). In the source, such an
activation never returns as long as the module keeps answering "not found"
for that path. The model gets this from `env.content` being one fixed
function for the whole activation.

The model keeps these quirks of the code:

- `GetResources` and `GetResourcesByType` return `len(registry)` zero-valued
  resources before the real ones.
- The first `AddAsset` seeds a zero-valued placeholder.
- `GetResource("")` finds that placeholder once anything has been added.
- `listResources` returns n empty strings before its n URLs.
- The plugin manager's first activation sends only when the serialization is
  non-empty, because Go compares a nil slice equal to an empty one.
- The redirect target is whatever `notFoundRedirectPath` makes of the
  stripped path. That is not necessarily the parent path.

## Model

| member | source | states |
|---|---|---|
| GoStrings.TrimPrefix | internal/api/content_manager.go:123 | a present prefix is removed exactly once (`prefix + r == s`); without it the string is unchanged |
| GoStrings.TrimPrefixOfConcat | internal/api/content_manager.go:128 | trimming the prefix a string was built with returns the rest |
| GoStrings.ExtIsFinalDotSuffix | pkg/plugin/service/handler.go:174 | the extension is a suffix of the path that is empty or starts with `.` and has no other `.` or `/` |
| GoStrings.ExtEmptyIffNoDot | pkg/plugin/service/handler.go:174 | the extension is empty exactly when the final path element has no `.` |
| ContentManager.GenerateContent | internal/api/content_manager.go:116-150 | an empty path gives an empty page, no rerun and no error; no owning module is an error; otherwise the module, asked for the stripped path minus its name, decides: a page is returned unchanged, "not found" reruns, any other error fails; errors and reruns carry the empty page; only a rerun changes the state, and it changes just the content path to the redirect of the stripped path |
| ContentManager.UnprefixedPathPassesThrough | internal/api/content_manager.go:121-140 | a non-empty path without `/content/` reaches the registry unchanged; no owner fails, and an owner's page for it is returned |
| ContentManager.EmptyPathConsultsNothing | internal/api/content_manager.go:117-118 | with an empty path the result does not depend on any collaborator |
| ContentManager.ModuleSeesBothPrefixesStripped | internal/api/content_manager.go:123-140 | for `/content/<name><rest>` the module named `name` is asked for `rest`; its page is passed on unchanged, "not found" redirects from `<name><rest>` and reruns, any other error fails and leaves the state alone |
| ContentManager.Generations | internal/api/content_manager.go:93-110 | the generations of one activation: the first is on the current state, every one but the last succeeded and asked for a rerun, and the loop only stops early because the last did not |
| ContentManager.GenerationsChain | internal/api/content_manager.go:94-109 | each generation after the first runs on the state the previous one left |
| ContentManager.RunUpdate | internal/api/content_manager.go:91-113 | for any injected generator: never asks the poller to stop; sends nothing when cancelled; otherwise sends one content event per generation in order, except for a failing last one; ends in the state the last generation left |
| ContentManager.ContentEvent | internal/api/content_manager.go:211-217 | a content-typed event that carries the page |
| ContentManager.ContentEventInjective | internal/api/content_manager.go:211-217 | distinct pages give distinct content events, so the event loses nothing of the page |
| ContentManager.DefaultGenerator | internal/api/content_manager.go:65 | the manager's default generator produces exactly what `generateContent` produces, on every state |
| ContentManager.DefaultShrinksOnRerun | internal/api/content_manager.go:116-137 | with redirects that are empty or shorter after the next prefix strip, every rerun of the default generator strictly lowers the path measure |
| ContentManager.ParentRedirectShortens | internal/api/content_manager.go:133-137 | a redirect from `foo/bar` to `/content/foo` satisfies the shortening hypothesis, although it re-adds the prefix |
| ContentManager.ShorterRedirectsFinish | internal/api/content_manager.go:93-110 | when every rerun lowers the path measure, the loop ends on its own within measure + 1 rounds |
| ContentManager.ExtraFuelChangesNothing | internal/api/content_manager.go:93-110 | once the loop ends on its own, a larger bound yields the same generations |
| ContentManager.SameGenerationsSameActivation | internal/api/content_manager.go:91-113 | the activation depends on the bound only through the generations it allows |
| ContentManager.RedirectLoopTerminates | internal/api/content_manager.go:93-110 | under shortening redirects every bound above the path measure gives the same finished activation |
| ContentManager.SelfRedirectNeverFinishes | internal/api/content_manager.go:133-137 | a "not found" redirected to the same content path makes every bounded run exhaust its bound, sending one event per round |
| ContentManager.RenderedPageScenario | internal/api/content_manager.go:123-146 | `/content/foo/bar` rendered by module `foo` for `/bar` yields exactly one content event with that page |
| ContentManager.NotFoundRedirectScenario | internal/api/content_manager.go:133-137 | "not found" for `/bar` redirected to `/content/foo` yields two events, the empty page then the parent's page, and leaves the path at `/content/foo` |
| ContentManager.SetContentPath | internal/api/content_manager.go:197-204 | fails, leaving the state unchanged, exactly when the field cannot be extracted; otherwise sets only the content path to it |
| ContentManager.SetNamespace | internal/api/content_manager.go:187-194 | fails, leaving the state unchanged, exactly when the field cannot be extracted; otherwise sets only the namespace to it |
| ContentManager.SetQueryParams | internal/api/content_manager.go:171-184 | no object `params` with a `filters` entry is a no-op success; it fails exactly when the filter parser fails, then leaving filters unchanged; otherwise sets the filters |
| ContentManager.Handlers | internal/api/content_manager.go:153-168 | three entries with pairwise distinct request types and handlers |
| ContentManager.HandlersWriteOneField | internal/api/content_manager.go:153-204 | each handler in the table writes no field but its own, and nothing when it fails |
| PluginService.Validate | pkg/plugin/service/handler.go:44-50 | an error exactly when there is no dashboard factory |
| PluginService.Register | pkg/plugin/service/handler.go:53-69 | a factory error gives empty metadata and leaves the client unchanged; success stores the new client and returns name, description and capabilities; the asset registry is untouched; a nil capabilities pointer is accepted when the factory fails |
| PluginService.Dispatch | pkg/plugin/service/handler.go:73-83 | a missing handler gives the zero value with no error; a present one's result is returned unchanged |
| PluginService.Print | pkg/plugin/service/handler.go:72-84 | no handler is a zero success; otherwise the handler gets the plugin name, the current dashboard client and the object |
| PluginService.PrintTab | pkg/plugin/service/handler.go:87-99 | no handler is a zero success; otherwise the handler gets the plugin name, the current dashboard client and the object |
| PluginService.ObjectStatus | pkg/plugin/service/handler.go:102-114 | no handler is a zero success; otherwise the handler gets the plugin name, the current dashboard client and the object |
| PluginService.HandleAction | pkg/plugin/service/handler.go:117-129 | no handler is no error; otherwise the handler gets the plugin name, the current dashboard client and the payload |
| PluginService.GetNavigation | pkg/plugin/service/handler.go:132-143 | no handler is a zero success; otherwise the handler gets the plugin name and the current dashboard client |
| PluginService.Content | pkg/plugin/service/handler.go:146-159 | a router miss is an empty page without error; a hit calls the matched function with the request for exactly that path |
| PluginService.MissingHandlersNeverFail | pkg/plugin/service/handler.go:73-75 | with no handlers configured, all five capabilities succeed for every input |
| PluginService.RequestsCarryRegisteredClient | pkg/plugin/service/handler.go:57-83 | before registration requests carry no client; after a successful one they carry the client the factory built |
| PluginService.AddAsset | pkg/plugin/service/handler.go:162-180 | the registry is non-nil afterwards and the dashboard client is untouched |
| PluginService.AddAssetAppends | pkg/plugin/service/handler.go:166-177 | the new entry is appended last with mime type of its extension; the nil registry becomes placeholder + entry (0 to 2), otherwise the old entries are kept and the length grows by one |
| PluginService.AddAssetKeepsPlaceholder | pkg/plugin/service/handler.go:166-177 | a registry that is nil or starts with the placeholder still does so after an add, and then starts with it |
| PluginService.RegistryAfterAdds | pkg/plugin/service/handler.go:166-177 | after n >= 1 adds to a fresh handler the registry holds n + 1 entries: the placeholder, then the assets in order |
| PluginService.GetResources | pkg/plugin/service/handler.go:183-189 | the registry's length in zero resources, then every entry's resource in order |
| PluginService.OfType | pkg/plugin/service/handler.go:194-198 | the filtered list is no longer than the registry and has only resources of the mime type |
| PluginService.OfTypeMembers | pkg/plugin/service/handler.go:194-198 | a resource is in the filtered list exactly when it has the mime type and some registry entry carries it |
| PluginService.GetResourcesByType | pkg/plugin/service/handler.go:192-200 | the same zero-valued prefix, then only the resources of the requested mime type, in order |
| PluginService.FirstWithPath | pkg/plugin/service/handler.go:204-208 | the first index whose path matches, or none exactly when no entry matches |
| PluginService.GetResource | pkg/plugin/service/handler.go:203-210 | the content of the first entry with that path; an error exactly when no entry has it |
| PluginService.GetAfterAdd | pkg/plugin/service/handler.go:162-210 | an asset added under a new path is found again with exactly the content added |
| PluginService.EmptyPathFindsPlaceholder | pkg/plugin/service/handler.go:166-208 | once anything was added, `""` finds the placeholder with empty content |
| PluginManager.Activate | internal/api/plugin_manager.go:72-92 | never stops the poller; cancelled or unserializable means no send and no change; sends exactly when the bytes differ from the previous ones, and then remembers them |
| PluginManager.GeneratorErrorOnlyLogged | internal/api/plugin_manager.go:73-76 | a generator error does not change what the activation does with the event |
| PluginManager.FirstActivationSends | internal/api/plugin_manager.go:69-88 | starting from nil, an activation sends whenever the serialization is non-empty |
| PluginManager.Run | internal/api/plugin_manager.go:68-93 | over a run of activations the remembered bytes are those of the last event sent, and each sent event serializes to its recorded bytes |
| PluginManager.RunRemembersLast | internal/api/plugin_manager.go:78-89 | after a run whose last activation was not cancelled and serialized, the remembered bytes are that serialization |
| PluginManager.ChangedTickIsSent | internal/api/plugin_manager.go:78-89 | an uncancelled activation whose bytes differ from the remembered ones is sent, after everything sent before, and its bytes are remembered |
| PluginManager.ConsecutiveSendsDiffer | internal/api/plugin_manager.go:85-88 | two consecutive sends never carry byte-equal serializations, and the first differs from the starting bytes |
| PluginManager.UnchangedResourcesNotResent | internal/api/plugin_manager.go:78-89 | two activations over the same plugin assets send at most once |
| PluginManager.PluginTick | internal/api/plugin_manager.go:95-105 | building the generator never fails, so each activation sees the web-resources event and no generator error |
| PluginManager.Handlers | internal/api/plugin_manager.go:59-61 | no client-request handlers |
| PluginResource.AssetUrlInjective | internal/event/plugin_resource.go:41 | for plugin names without `/`, distinct assets get distinct URLs |
| PluginResource.ListResources | internal/event/plugin_resource.go:33-45 | a failed lookup gives no entries; otherwise n empty strings then the n asset URLs in lookup order (length 2n) |
| PluginResource.ListedUrlsComeFromLookup | internal/event/plugin_resource.go:39-44 | every non-empty listed URL is the URL of an asset the lookup reported |
| PluginResource.ResourcesEvent | internal/event/plugin_resource.go:48-63 | a web-resources event whose css list is the `text/css` listing and whose js list is the `application/javascript` listing |

## Left out

- The poller, the trigger channel, timers and the `OnContentPathUpdate` wiring in `Start` are left out. They are concurrency and plumbing. A poller activation is one call of `RunUpdate` or `Activate`.
- The `sync.Mutex` of the plugin handler is left out. The handler is modelled as sequential state.
- Logging, `time.Now`/`time.Since` and error message texts are left out. An error is only `Failure` or a `failed` flag.
- RunUpdate: the source loop has no bound. The model runs at most `fuel` rounds and reports `finished == false` when the bound cut it short.
- RunUpdate: context cancellation is one boolean per activation. A context cancelled partway through a redirect chain is not modelled.
- PluginService.Register: requires a dashboard factory, and a capabilities pointer whenever the factory succeeds. The source calls the factory unconditionally and dereferences the pointer only after that success, so in the excluded cases it panics instead of returning.
- PluginService.Print: a handler's `(response, error)` pair is a `Result`, so a response returned alongside an error is dropped. The same holds for `PrintTab`, `ObjectStatus`, `GetNavigation`, `Content` and `Dispatch`.
- PluginService.AddAsset: the Go error result is always nil and is not modelled.
- `mime.TypeByExtension` is a parameter. Its table depends on the system, so the model does not claim that `.css` maps to `text/css`.
- `filepath.Ext` uses only `/` as the path separator, as on Unix.
- `ScheduleDelay()` returns `DefaultScheduleDelay`, whose definition is not part of this model. `Name()` is the constant `PluginResource.Name`.
- `NewContentManager`, `NewPluginManager`, the option functions and `initGenerator` are constructors. The plugin manager's default generator is `PluginManager.PluginTick`.
- `internal/api/plugin_resources.go` is left out. It is an HTTP handler and does only I/O.
- `internal/octant/client_request.go` is left out. It declares only types, and its handler signature differs from the content manager's setters.
- `web/src/app/app.component.spec.ts` (an Angular UI test) and `internal/overview/volume_test.go` (its function under test is not part of this model) are left out.
