/** The content manager of one client connection: it regenerates the page at
    the connection's content path, follows "not found" redirects within one
    activation, sends one content event per generated page, and serves the
    three client requests that change the session state.

    The module registry, the modules themselves, the redirect rule, the
    label-set translation, the payload accessor and the filter parser are not
    modelled: they are the function-valued fields of `Env`.
 */
module ContentManager {
  import opened Results
  import opened GoStrings
  import opened Octant

  const RequestSetContentPath := "setContentPath"
  const RequestSetNamespace := "setNamespace"
  const RequestSetQueryParams := "setQueryParams"

  /** The leading segment that marks a client-facing content URL. */
  const ContentPrefix := "/content/"

  /** One key/value predicate of the active filter set. */
  datatype Filter = Filter(key: string, value: string)

  type LabelSet = map<string, string>

  /** `module.ContentOptions`: what a module is told besides the path. */
  datatype ContentOptions = ContentOptions(labelSet: LabelSet)

  /** `octant.State`, reduced to the three fields this core reads and writes. */
  datatype State = State(contentPath: string, namespace: string, filters: seq<Filter>)

  /** A content-owning module; `name` is what its `Name()` returns. */
  datatype Module = Module(name: string, id: nat)

  /** What a module's `Content` call produces: a page, or an error that does
      (`notFound`) or does not report `NotFound() == true`. */
  datatype ModuleOutcome = Rendered(response: ContentResponse) | ModuleFailed(notFound: bool)

  /** The collaborators of the content manager. */
  datatype Env = Env(
    moduleForContentPath: string -> Option<Module>,
    content: (Module, string, ContentOptions) -> ModuleOutcome,
    filtersToLabelSet: seq<Filter> -> LabelSet,
    notFoundRedirectPath: string -> string,
    payloadString: (Payload, string) -> Option<string>,
    filtersFromQueryParams: Value -> Result<seq<Filter>>)

  /** One call of `generateContent`: the response, the `rerun` flag, whether
      an error was returned, and the session state afterwards. */
  datatype Generation = Generation(response: ContentResponse, rerun: bool, failed: bool, state: State)

  /** The path a module sees after the content prefix is removed. */
  function StrippedPath(st: State): string {
    TrimPrefix(st.contentPath, ContentPrefix)
  }

  /** The options passed to a module: the current filters as a label set. */
  function OptionsFor(env: Env, st: State): ContentOptions {
    ContentOptions(env.filtersToLabelSet(st.filters))
  }

  /** `generateContent`. */
  function GenerateContent(env: Env, st: State): (r: Generation)
    ensures st.contentPath == "" ==> r == Generation(EmptyContentResponse, false, false, st)
    ensures st.contentPath != "" && env.moduleForContentPath(StrippedPath(st)).None? ==> r.failed
    ensures !(r.failed && r.rerun)
    ensures r.failed || r.rerun ==> r.response == EmptyContentResponse
    ensures r.rerun ==> st.contentPath != ""
                        && r.state == st.(contentPath := env.notFoundRedirectPath(StrippedPath(st)))
    ensures !r.rerun ==> r.state == st
    ensures st.contentPath != "" && env.moduleForContentPath(StrippedPath(st)).Some? ==>
              var m := env.moduleForContentPath(StrippedPath(st)).value;
              var outcome := env.content(m, TrimPrefix(StrippedPath(st), m.name), OptionsFor(env, st));
              && (outcome.Rendered? ==> r == Generation(outcome.response, false, false, st))
              && (outcome == ModuleFailed(true) ==> r.rerun && !r.failed)
              && (outcome == ModuleFailed(false) ==> r.failed && r.state == st)
  {
    if st.contentPath == "" then Generation(EmptyContentResponse, false, false, st)
    else
      var path := StrippedPath(st);
      match env.moduleForContentPath(path)
      case None => Generation(EmptyContentResponse, false, true, st)
      case Some(m) =>
        match env.content(m, TrimPrefix(path, m.name), OptionsFor(env, st))
        case Rendered(response) => Generation(response, false, false, st)
        case ModuleFailed(notFound) =>
          if notFound then
            Generation(EmptyContentResponse, true, false,
                       st.(contentPath := env.notFoundRedirectPath(path)))
          else Generation(EmptyContentResponse, false, true, st)
  }

  /** With an empty content path no collaborator is consulted: the result is
      the same whatever the environment. */
  lemma EmptyPathConsultsNothing(env1: Env, env2: Env, st: State)
    requires st.contentPath == ""
    ensures GenerateContent(env1, st) == GenerateContent(env2, st)
    ensures !GenerateContent(env1, st).failed && !GenerateContent(env1, st).rerun
  {
  }

  /** A path without the content prefix reaches the module registry
      unchanged, and the module is asked for it with its own name removed
      when that name is a prefix and unchanged otherwise. */
  lemma UnprefixedPathPassesThrough(env: Env, st: State)
    requires st.contentPath != "" && !HasPrefix(st.contentPath, ContentPrefix)
    ensures StrippedPath(st) == st.contentPath
    ensures env.moduleForContentPath(st.contentPath).None? ==> GenerateContent(env, st).failed
    ensures env.moduleForContentPath(st.contentPath).Some? ==>
              var m := env.moduleForContentPath(st.contentPath).value;
              var outcome := env.content(m, TrimPrefix(st.contentPath, m.name), OptionsFor(env, st));
              outcome.Rendered? ==> GenerateContent(env, st).response == outcome.response
  {
  }

  /** For a path `/content/<name><rest>` owned by a module called `name`, the
      module is asked for exactly `rest`, and its outcome decides the result:
      a page is passed on unchanged, "not found" redirects from
      `<name><rest>`, and any other error fails without touching the state. */
  lemma ModuleSeesBothPrefixesStripped(env: Env, st: State, m: Module, rest: string)
    requires st.contentPath == ContentPrefix + m.name + rest
    requires env.moduleForContentPath(m.name + rest) == Some(m)
    ensures var outcome := env.content(m, rest, OptionsFor(env, st));
            var r := GenerateContent(env, st);
            && (outcome.Rendered? ==> r == Generation(outcome.response, false, false, st))
            && (outcome == ModuleFailed(true) ==>
                  r.rerun && !r.failed
                  && r.state.contentPath == env.notFoundRedirectPath(m.name + rest))
            && (outcome == ModuleFailed(false) ==> r.failed && r.state == st)
  {
    TrimPrefixOfConcat(ContentPrefix, m.name + rest);
    TrimPrefixOfConcat(m.name, rest);
    assert ContentPrefix + m.name + rest == ContentPrefix + (m.name + rest);
  }

  /** `CreateContentEvent`: the event that carries one generated page. */
  function ContentEvent(response: ContentResponse): (r: Event)
    ensures r.eventType == EventTypeContent && r.data.ContentData? && r.data.response == response
  {
    Event(EventTypeContent, ContentData(response))
  }

  /** Distinct pages give distinct content events: the event loses nothing. */
  lemma ContentEventInjective(a: ContentResponse, b: ContentResponse)
    requires ContentEvent(a) == ContentEvent(b)
    ensures a == b
  {
    assert ContentEvent(a).data.response == a;
  }

  /** `ContentGenerateFunc`: what `runUpdate` calls once per round.  The
      manager uses `generateContent` unless it was built with another one. */
  type ContentGenerateFunc = State -> Generation

  /** The generator a manager gets by default. */
  function DefaultGenerator(env: Env): (generate: ContentGenerateFunc)
    ensures forall st :: generate(st) == GenerateContent(env, st)
  {
    st => GenerateContent(env, st)
  }

  /** A round after which the loop goes on: no error, and a rerun asked for. */
  predicate Continues(g: Generation) {
    !g.failed && g.rerun
  }

  /** The generations one activation of `runUpdate` performs when it may run
      the body of its loop at most `fuel` times: it goes on exactly while the
      last generation succeeded and asked for a rerun. */
  function Generations(generate: ContentGenerateFunc, st: State, fuel: nat): (r: seq<Generation>)
    ensures |r| <= fuel
    ensures fuel > 0 ==> |r| > 0 && r[0] == generate(st)
    ensures forall i :: 0 <= i < |r| - 1 ==> Continues(r[i])
    ensures |r| < fuel ==> Finished(r)
    decreases fuel
  {
    if fuel == 0 then []
    else
      var g := generate(st);
      if Continues(g) then [g] + Generations(generate, g.state, fuel - 1) else [g]
  }

  /** The loop stopped on its own: its last generation failed or did not ask
      for a rerun. */
  predicate Finished(steps: seq<Generation>) {
    |steps| > 0 && !Continues(steps[|steps| - 1])
  }

  /** How many of `steps` produced a page to send: all but a failing last one. */
  function Delivered(steps: seq<Generation>): nat {
    if |steps| > 0 && steps[|steps| - 1].failed then |steps| - 1 else |steps|
  }

  /** The session state after `steps`. */
  function FinalState(st: State, steps: seq<Generation>): State {
    if |steps| == 0 then st else steps[|steps| - 1].state
  }

  /** The outcome of one poller activation: the events sent, the session
      state left behind, whether the loop ended on its own, and the flag
      returned to the poller. */
  datatype Activation = Activation(events: seq<Event>, state: State, finished: bool, stop: bool)

  /** `runUpdate`: one poller activation.  It generates, stops silently on an
      error, otherwise sends the page unless the context is cancelled, and
      repeats while the generation asked for a rerun.  `fuel` bounds the
      repetitions (the source has no bound); `finished` says whether the loop
      ended on its own within it.  The activation never asks the poller to
      stop. */
  function RunUpdate(generate: ContentGenerateFunc, st: State, cancelled: bool, fuel: nat): (r: Activation)
    ensures !r.stop
    ensures r.finished == Finished(Generations(generate, st, fuel))
    ensures r.state == FinalState(st, Generations(generate, st, fuel))
    ensures cancelled ==> r.events == []
    ensures !cancelled ==> |r.events| == Delivered(Generations(generate, st, fuel))
    ensures !cancelled ==> forall i :: 0 <= i < |r.events| ==>
                             r.events[i] == ContentEvent(Generations(generate, st, fuel)[i].response)
    decreases fuel
  {
    if fuel == 0 then Activation([], st, false, false)
    else
      var g := generate(st);
      if g.failed then Activation([], g.state, true, false)
      else
        var sent := if cancelled then [] else [ContentEvent(g.response)];
        if !g.rerun then Activation(sent, g.state, true, false)
        else
          var rest := RunUpdate(generate, g.state, cancelled, fuel - 1);
          Activation(sent + rest.events, rest.state, rest.finished, false)
  }

  /** One unrolling of `Generations`. */
  lemma GenerationsUnfold(generate: ContentGenerateFunc, st: State, fuel: nat)
    requires fuel > 0
    ensures var g := generate(st);
            Generations(generate, st, fuel)
              == [g] + (if Continues(g) then Generations(generate, g.state, fuel - 1) else [])
  {
  }

  /** Each generation after the first runs on the state the previous one
      left behind. */
  lemma {:induction false} GenerationsChain(generate: ContentGenerateFunc, st: State, fuel: nat, i: nat)
    requires i + 1 < |Generations(generate, st, fuel)|
    ensures var r := Generations(generate, st, fuel);
            r[i + 1] == generate(r[i].state)
    decreases fuel
  {
    GenerationsUnfold(generate, st, fuel);
    var g := generate(st);
    var tail := Generations(generate, g.state, fuel - 1);
    assert Generations(generate, st, fuel) == [g] + tail;
    if i > 0 {
      GenerationsChain(generate, g.state, fuel - 1, i - 1);
    }
  }

  /** How far a state is from the empty path, as the next generation sees
      it: 0 for the empty path, otherwise one more than the length of the
      path with the content prefix removed. */
  function PathMeasure(st: State): nat {
    if st.contentPath == "" then 0 else |StrippedPath(st)| + 1
  }

  /** A redirect rule that always empties the path or leads to one that is
      shorter once its content prefix is removed again. */
  ghost predicate ShortensPaths(redirect: string -> string) {
    forall p :: redirect(p) == "" || |TrimPrefix(redirect(p), ContentPrefix)| < |p|
  }

  /** A generator whose every continuing round leaves a state of strictly
      smaller `PathMeasure`. */
  ghost predicate ShrinksOnRerun(generate: ContentGenerateFunc) {
    forall st :: Continues(generate(st)) ==> PathMeasure(generate(st).state) < PathMeasure(st)
  }

  /** The default generator shrinks the measure on every rerun when the
      redirect rule shortens paths: a rerun needs a non-empty path, and the
      redirect starts from the path with the content prefix removed. */
  lemma DefaultShrinksOnRerun(env: Env)
    requires ShortensPaths(env.notFoundRedirectPath)
    ensures ShrinksOnRerun(DefaultGenerator(env))
  {
    var generate := DefaultGenerator(env);
    forall st | Continues(generate(st))
      ensures PathMeasure(generate(st).state) < PathMeasure(st)
    {
      var p := StrippedPath(st);
      assert env.notFoundRedirectPath(p) == ""
          || |TrimPrefix(env.notFoundRedirectPath(p), ContentPrefix)| < |p|;
    }
  }

  /** The redirect of the parent-page scenario below, `foo/bar` to
      `/content/foo` (and every other path to ""), shortens paths: it re-adds
      the prefix, but the next strip leaves the shorter `foo`. */
  lemma ParentRedirectShortens()
    ensures ShortensPaths(p => if p == "foo/bar" then "/content/foo" else "")
  {
    TrimPrefixOfConcat(ContentPrefix, "foo");
    assert ContentPrefix + "foo" == "/content/foo";
  }

  /** When every rerun shrinks the measure, the rerun loop ends on its own
      within one more iteration than the measure. */
  lemma {:induction false} ShorterRedirectsFinish(generate: ContentGenerateFunc, st: State, fuel: nat)
    requires ShrinksOnRerun(generate)
    requires fuel > PathMeasure(st)
    ensures Finished(Generations(generate, st, fuel))
    decreases PathMeasure(st)
  {
    GenerationsUnfold(generate, st, fuel);
    var g := generate(st);
    if Continues(g) {
      var tail := Generations(generate, g.state, fuel - 1);
      assert Generations(generate, st, fuel) == [g] + tail;
      ShorterRedirectsFinish(generate, g.state, fuel - 1);
    }
  }

  /** Once the loop has ended on its own, more fuel changes nothing. */
  lemma {:induction false} ExtraFuelChangesNothing(generate: ContentGenerateFunc, st: State, fuel: nat, more: nat)
    requires Finished(Generations(generate, st, fuel))
    requires fuel <= more
    ensures Generations(generate, st, more) == Generations(generate, st, fuel)
    decreases fuel
  {
    GenerationsUnfold(generate, st, fuel);
    GenerationsUnfold(generate, st, more);
    var g := generate(st);
    if Continues(g) {
      var tail := Generations(generate, g.state, fuel - 1);
      assert Generations(generate, st, fuel) == [g] + tail;
      assert Finished(tail);
      ExtraFuelChangesNothing(generate, g.state, fuel - 1, more - 1);
    }
  }

  /** Two bounds that allow the same generations give the same activation. */
  lemma SameGenerationsSameActivation(generate: ContentGenerateFunc, st: State, cancelled: bool, f1: nat, f2: nat)
    requires Generations(generate, st, f1) == Generations(generate, st, f2)
    ensures RunUpdate(generate, st, cancelled, f1) == RunUpdate(generate, st, cancelled, f2)
  {
    var a := RunUpdate(generate, st, cancelled, f1);
    var b := RunUpdate(generate, st, cancelled, f2);
    assert a.events == b.events;
  }

  /** Under shortening redirects an activation of the default generator is
      the same for every bound above the measure: the bound is never what
      stops it. */
  lemma RedirectLoopTerminates(env: Env, st: State, cancelled: bool, fuel: nat)
    requires ShortensPaths(env.notFoundRedirectPath)
    requires fuel > PathMeasure(st)
    ensures RunUpdate(DefaultGenerator(env), st, cancelled, fuel).finished
    ensures RunUpdate(DefaultGenerator(env), st, cancelled, fuel)
         == RunUpdate(DefaultGenerator(env), st, cancelled, PathMeasure(st) + 1)
  {
    var generate := DefaultGenerator(env);
    var bound := PathMeasure(st) + 1;
    DefaultShrinksOnRerun(env);
    ShorterRedirectsFinish(generate, st, bound);
    ExtraFuelChangesNothing(generate, st, bound, fuel);
    SameGenerationsSameActivation(generate, st, cancelled, fuel, bound);
  }

  /** A "not found" whose redirect leads back to the same content path keeps
      the loop going for as long as it is allowed to run, sending one empty
      page per round: without a bound the activation never returns. */
  lemma {:induction false} SelfRedirectNeverFinishes(env: Env, st: State, m: Module, cancelled: bool, fuel: nat)
    requires st.contentPath != ""
    requires env.moduleForContentPath(StrippedPath(st)) == Some(m)
    requires env.content(m, TrimPrefix(StrippedPath(st), m.name), OptionsFor(env, st)) == ModuleFailed(true)
    requires env.notFoundRedirectPath(StrippedPath(st)) == st.contentPath
    ensures |Generations(DefaultGenerator(env), st, fuel)| == fuel
    ensures !RunUpdate(DefaultGenerator(env), st, cancelled, fuel).finished
    ensures !cancelled ==> |RunUpdate(DefaultGenerator(env), st, cancelled, fuel).events| == fuel
    decreases fuel
  {
    if fuel > 0 {
      var generate := DefaultGenerator(env);
      GenerationsUnfold(generate, st, fuel);
      var g := generate(st);
      assert Continues(g) && g.state == st;
      SelfRedirectNeverFinishes(env, st, m, cancelled, fuel - 1);
    }
  }

  /** A page rendered at `/content/foo/bar` by module "foo" for `/bar` is
      sent as the one content event of the activation. */
  lemma RenderedPageScenario(env: Env, st: State, m: Module, page: ContentResponse, fuel: nat)
    requires st.contentPath == "/content/foo/bar" && m.name == "foo"
    requires env.moduleForContentPath("foo/bar") == Some(m)
    requires env.content(m, "/bar", OptionsFor(env, st)) == Rendered(page)
    requires fuel > 0
    ensures RunUpdate(DefaultGenerator(env), st, false, fuel) == Activation([ContentEvent(page)], st, true, false)
  {
    assert m.name + "/bar" == "foo/bar";
    assert st.contentPath == ContentPrefix + m.name + "/bar";
    ModuleSeesBothPrefixesStripped(env, st, m, "/bar");
    GenerationsUnfold(DefaultGenerator(env), st, fuel);
  }

  /** "Not found" for `/bar` redirects to `/content/foo` and the activation
      sends two events in order: the empty page, then the parent's page. */
  lemma NotFoundRedirectScenario(env: Env, st: State, m: Module, parent: ContentResponse, fuel: nat)
    requires st.contentPath == "/content/foo/bar" && m.name == "foo"
    requires env.moduleForContentPath("foo/bar") == Some(m)
    requires env.moduleForContentPath("foo") == Some(m)
    requires env.notFoundRedirectPath("foo/bar") == "/content/foo"
    requires env.content(m, "/bar", OptionsFor(env, st)) == ModuleFailed(true)
    requires env.content(m, "", OptionsFor(env, st)) == Rendered(parent)
    requires fuel >= 2
    ensures var a := RunUpdate(DefaultGenerator(env), st, false, fuel);
            && a.events == [ContentEvent(EmptyContentResponse), ContentEvent(parent)]
            && a.state == st.(contentPath := "/content/foo")
            && a.finished
  {
    var generate := DefaultGenerator(env);
    var st' := st.(contentPath := "/content/foo");
    assert m.name + "/bar" == "foo/bar" && m.name + "" == "foo";
    assert st.contentPath == ContentPrefix + m.name + "/bar";
    assert st'.contentPath == ContentPrefix + m.name + "";
    ModuleSeesBothPrefixesStripped(env, st, m, "/bar");
    ModuleSeesBothPrefixesStripped(env, st', m, "");
    GenerationsUnfold(generate, st, fuel);
    GenerationsUnfold(generate, st', fuel - 1);
  }

  /** The result of a client request handler: whether it returned an error,
      and the session state afterwards. */
  datatype Update = Update(failed: bool, state: State)

  /** `SetContentPath`: writes the payload's "contentPath" string. */
  function SetContentPath(env: Env, st: State, payload: Payload): (r: Update)
    ensures r.failed <==> env.payloadString(payload, "contentPath").None?
    ensures r.failed ==> r.state == st
    ensures !r.failed ==> r.state == st.(contentPath := env.payloadString(payload, "contentPath").value)
  {
    match env.payloadString(payload, "contentPath")
    case None => Update(true, st)
    case Some(path) => Update(false, st.(contentPath := path))
  }

  /** `SetNamespace`: writes the payload's "namespace" string. */
  function SetNamespace(env: Env, st: State, payload: Payload): (r: Update)
    ensures r.failed <==> env.payloadString(payload, "namespace").None?
    ensures r.failed ==> r.state == st
    ensures !r.failed ==> r.state == st.(namespace := env.payloadString(payload, "namespace").value)
  {
    match env.payloadString(payload, "namespace")
    case None => Update(true, st)
    case Some(ns) => Update(false, st.(namespace := ns))
  }

  /** The "filters" entry of the payload's "params" object, when "params" is
      an object that has one. */
  function FiltersParam(payload: Payload): Option<Value> {
    if "params" in payload && payload["params"].Object? && "filters" in payload["params"].fields
    then Some(payload["params"].fields["filters"])
    else None
  }

  /** `SetQueryParams`: replaces the filters with the parsed "filters"
      parameter; a payload without one is accepted and changes nothing. */
  function SetQueryParams(env: Env, st: State, payload: Payload): (r: Update)
    ensures FiltersParam(payload).None? ==> r == Update(false, st)
    ensures r.failed <==> FiltersParam(payload).Some?
                          && env.filtersFromQueryParams(FiltersParam(payload).value).Failure?
    ensures r.failed ==> r.state == st
    ensures !r.failed && FiltersParam(payload).Some? ==>
              r.state == st.(filters := env.filtersFromQueryParams(FiltersParam(payload).value).value)
  {
    match FiltersParam(payload)
    case None => Update(false, st)
    case Some(filters) =>
      match env.filtersFromQueryParams(filters)
      case Failure => Update(true, st)
      case Success(list) => Update(false, st.(filters := list))
  }

  /** The three client requests the content manager serves. */
  datatype RequestKind = SetContentPathKind | SetNamespaceKind | SetQueryParamsKind

  /** Runs the handler for one kind of request. */
  function Handle(kind: RequestKind, env: Env, st: State, payload: Payload): Update {
    match kind
    case SetContentPathKind => SetContentPath(env, st, payload)
    case SetNamespaceKind => SetNamespace(env, st, payload)
    case SetQueryParamsKind => SetQueryParams(env, st, payload)
  }

  /** `Handlers`: one entry per request kind, under distinct request types. */
  function Handlers(): (r: seq<ClientRequestHandler<RequestKind>>)
    ensures |r| == 3
    ensures forall i, j :: 0 <= i < j < |r| ==> r[i].requestType != r[j].requestType && r[i].handler != r[j].handler
  {
    [ ClientRequestHandler(RequestSetContentPath, SetContentPathKind),
      ClientRequestHandler(RequestSetNamespace, SetNamespaceKind),
      ClientRequestHandler(RequestSetQueryParams, SetQueryParamsKind) ]
  }

  /** Every handler in the table writes at most its own field of the state,
      and writes nothing when it fails. */
  lemma HandlersWriteOneField(env: Env, st: State, payload: Payload, i: nat)
    requires i < |Handlers()|
    ensures var h := Handlers()[i];
            var r := Handle(h.handler, env, st, payload);
            && (r.failed ==> r.state == st)
            && (h.requestType != RequestSetContentPath ==> r.state.contentPath == st.contentPath)
            && (h.requestType != RequestSetNamespace ==> r.state.namespace == st.namespace)
            && (h.requestType != RequestSetQueryParams ==> r.state.filters == st.filters)
  {
  }
}
