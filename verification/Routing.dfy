/** From configuration to candidate clients (internal/config/config.go:180-197, 343-369,
    internal/gateway/routes.go:39-64, internal/router/router.go:891-927). */
module Routing {
  import opened Sequences
  import opened Rewriting
  import B = Breaker

  datatype ModelRoute = ModelRoute(modelName: string, provider: string, upstreamModel: string, fallbacks: seq<string>)
  datatype RouteRule = RouteRule(pattern: string, provider: string)

  // ---------- Reading the model list ----------

  predicate Names(route: ModelRoute, model: string) {
    route.modelName == model && route.modelName != "" && route.provider != ""
  }

  /** The last usable entry for a model, or -1: it decides the primary provider. */
  function LastEntry(list: seq<ModelRoute>, model: string): (i: int)
    ensures -1 <= i < |list|
    ensures i >= 0 ==> Names(list[i], model)
    ensures forall j :: i < j < |list| ==> !Names(list[j], model)
  {
    if list == [] then -1
    else if Names(list[|list| - 1], model) then |list| - 1
    else LastEntry(list[..|list| - 1], model)
  }

  predicate Translates(route: ModelRoute, provider: string, model: string) {
    Names(route, model) && route.provider == provider && route.upstreamModel != ""
  }

  /** The last entry that gives a model an upstream name at a provider, or -1. */
  function LastTranslation(list: seq<ModelRoute>, provider: string, model: string): (i: int)
    ensures -1 <= i < |list|
    ensures i >= 0 ==> Translates(list[i], provider, model)
    ensures forall j :: i < j < |list| ==> !Translates(list[j], provider, model)
  {
    if list == [] then -1
    else if Translates(list[|list| - 1], provider, model) then |list| - 1
    else LastTranslation(list[..|list| - 1], provider, model)
  }

  /** The fallbacks of the first entry with that name. */
  function Fallbacks(list: seq<ModelRoute>, model: string): seq<string> {
    if list == [] then [] else if list[0].modelName == model then list[0].fallbacks else Fallbacks(list[1..], model)
  }

  function RouteOf(routes: map<string, string>, list: seq<ModelRoute>, model: string): Option<string> {
    var i := LastEntry(list, model);
    if i >= 0 then Some(list[i].provider) else if model in routes then Some(routes[model]) else None
  }

  function AliasOf(aliases: map<string, string>, list: seq<ModelRoute>, provider: string,
                   model: string): Option<string> {
    var i := LastTranslation(list, provider, model);
    if i >= 0 then Some(list[i].upstreamModel) else if model in aliases then Some(aliases[model]) else None
  }

  function Lookup(m: map<string, string>, key: string): Option<string> {
    if key in m then Some(m[key]) else None
  }

  predicate HasSuffixStar(s: string) {
    s != "" && s[|s| - 1] == '*'
  }

  predicate GoodRoute(providers: set<string>, route: ModelRoute) {
    && route.modelName != "" && route.provider != ""
    && route.provider in providers
    && forall i | 0 <= i < |route.fallbacks| :: route.fallbacks[i] in providers
  }

  predicate GoodRule(providers: set<string>, rule: RouteRule) {
    && rule.pattern != "" && rule.provider != ""
    && rule.provider in providers
    && (HasSuffixStar(rule.pattern) || '/' in rule.pattern)
  }

  /** What validation guarantees about routing. */
  predicate ValidRouting(providers: set<string>, list: seq<ModelRoute>, rules: seq<RouteRule>) {
    && (forall i | 0 <= i < |list| :: GoodRoute(providers, list[i]))
    && (forall i | 0 <= i < |rules| :: GoodRule(providers, rules[i]))
  }

  /** Each listed model is routed to the provider of its last entry. */
  ghost predicate RoutesNormalized(before: map<string, string>, list: seq<ModelRoute>, routes: map<string, string>) {
    forall model :: Lookup(routes, model) == RouteOf(before, list, model)
  }

  /** Providers gain the upstream names of their last entries as aliases, and change in nothing else. */
  ghost predicate AliasesNormalized(before: map<string, Client>, list: seq<ModelRoute>,
                                    providers: map<string, Client>) {
    && providers.Keys == before.Keys
    && (forall name :: name in before ==> providers[name] == before[name].(aliases := providers[name].aliases))
    && (forall name, model :: name in before ==>
          Lookup(providers[name].aliases, model) == AliasOf(before[name].aliases, list, name, model))
  }

  lemma LastEntryNext(list: seq<ModelRoute>, route: ModelRoute, model: string)
    ensures LastEntry(list + [route], model) == if Names(route, model) then |list| else LastEntry(list, model)
  {
    assert (list + [route])[..|list|] == list;
  }

  lemma LastTranslationNext(list: seq<ModelRoute>, route: ModelRoute, provider: string, model: string)
    ensures LastTranslation(list + [route], provider, model)
            == if Translates(route, provider, model) then |list| else LastTranslation(list, provider, model)
  {
    assert (list + [route])[..|list|] == list;
  }

  lemma RoutesStep(before: map<string, string>, list: seq<ModelRoute>, routes: map<string, string>, route: ModelRoute)
    requires RoutesNormalized(before, list, routes)
    ensures RoutesNormalized(before, list + [route],
                             if route.modelName == "" || route.provider == "" then routes
                             else routes[route.modelName := route.provider])
  {
    var routes' :=
      if route.modelName == "" || route.provider == "" then routes else routes[route.modelName := route.provider];
    forall model ensures Lookup(routes', model) == RouteOf(before, list + [route], model) {
      LastEntryNext(list, route, model);
      assert Lookup(routes, model) == RouteOf(before, list, model);
    }
  }

  lemma AliasesStep(before: map<string, Client>, list: seq<ModelRoute>, providers: map<string, Client>,
                    route: ModelRoute)
    requires AliasesNormalized(before, list, providers)
    ensures
      var p := route.provider;
      AliasesNormalized(before, list + [route],
                        if route.modelName == "" || p == "" || p !in providers || route.upstreamModel == ""
                        then providers
                        else
                          var aliases := providers[p].aliases[route.modelName := route.upstreamModel];
                          providers[p := providers[p].(aliases := aliases)])
  {
    var p := route.provider;
    var providers' :=
      if route.modelName == "" || p == "" || p !in providers || route.upstreamModel == "" then providers
      else providers[p := providers[p].(aliases := providers[p].aliases[route.modelName := route.upstreamModel])];
    forall name, model | name in before
      ensures Lookup(providers'[name].aliases, model) == AliasOf(before[name].aliases, list + [route], name, model)
    {
      LastTranslationNext(list, route, name, model);
      assert Lookup(providers[name].aliases, model) == AliasOf(before[name].aliases, list, name, model);
    }
  }

  const OLLAMA := "ollama"

  function Pin(aliases: map<string, string>, alias: string, env: map<string, string>, variable: string): map<string,
               string> {
    if variable in env && env[variable] != "" then aliases[alias := env[variable]] else aliases
  }

  function WithKey(keys: map<string, string>, name: string, c: Client): Client {
    c.(apiKey := if name in keys then keys[name] else "")
  }

  /** A provider with its key and, for Ollama, the models that the environment pins. */
  function FromEnvironment(env: map<string, string>, keys: map<string, string>, name: string, c: Client): Client {
    var chat := Pin(c.aliases, "ollama-qwen3", env, "OLLAMA_CHAT_MODEL");
    var pinned := Pin(chat, "ollama-nomic-embed", env, "OLLAMA_EMBEDDING_MODEL");
    WithKey(keys, name, if name == OLLAMA then c.(aliases := pinned) else c)
  }

  class Config {
    var providers: map<string, Client>
    const modelList: seq<ModelRoute>
    var routes: map<string, string>
    const rules: seq<RouteRule>

    constructor (providers: map<string, Client>, modelList: seq<ModelRoute>, routes: map<string, string>,
                 rules: seq<RouteRule>)
      ensures this.providers == providers && this.modelList == modelList && this.routes == routes && this.rules == rules
    {
      this.providers, this.modelList, this.routes, this.rules := providers, modelList, routes, rules;
    }

    /** `normalizeModelRoutes`. */
    method NormalizeModelRoutes()
      modifies this
      ensures RoutesNormalized(old(routes), modelList, routes)
      ensures AliasesNormalized(old(providers), modelList, providers)
    {
      for i := 0 to |modelList|
        invariant RoutesNormalized(old(routes), modelList[..i], routes)
        invariant AliasesNormalized(old(providers), modelList[..i], providers)
      {
        var route := modelList[i];
        assert modelList[..i + 1] == modelList[..i] + [route];
        RoutesStep(old(routes), modelList[..i], routes, route);
        AliasesStep(old(providers), modelList[..i], providers, route);
        if route.modelName == "" || route.provider == "" {
          continue;
        }
        routes := routes[route.modelName := route.provider];
        if route.provider in providers && route.upstreamModel != "" {
          var provider := providers[route.provider];
          provider := provider.(aliases := provider.aliases[route.modelName := route.upstreamModel]);
          providers := providers[route.provider := provider];
        }
      }
      assert modelList[..|modelList|] == modelList;
    }

    /** The providers' part of `applyEnvironment`; `keys` are the API keys that it looks up, by provider. */
    method ApplyEnvironment(env: map<string, string>, keys: map<string, string>)
      modifies this`providers
      ensures providers.Keys == old(providers).Keys
      ensures forall name :: name in providers ==>
                providers[name] == FromEnvironment(env, keys, name, old(providers)[name])
    {
      if OLLAMA in providers {
        var provider := providers[OLLAMA];
        if "OLLAMA_CHAT_MODEL" in env && env["OLLAMA_CHAT_MODEL"] != "" {
          provider := provider.(aliases := provider.aliases["ollama-qwen3" := env["OLLAMA_CHAT_MODEL"]]);
        }
        if "OLLAMA_EMBEDDING_MODEL" in env && env["OLLAMA_EMBEDDING_MODEL"] != "" {
          provider := provider.(aliases := provider.aliases["ollama-nomic-embed" := env["OLLAMA_EMBEDDING_MODEL"]]);
        }
        providers := providers[OLLAMA := provider];
      }
      LoadKeys(keys);
    }

    /** The loop that looks up the keys. */
    method LoadKeys(keys: map<string, string>)
      modifies this`providers
      ensures providers.Keys == old(providers).Keys
      ensures forall name :: name in providers ==> providers[name] == WithKey(keys, name, old(providers)[name])
    {
      var left := providers.Keys;
      while left != {}
        invariant left <= providers.Keys == old(providers).Keys
        invariant forall name :: name in providers ==>
                    providers[name] ==
                    if name in left then old(providers)[name] else WithKey(keys, name, old(providers)[name])
        decreases left
      {
        var name :| name in left;
        providers := providers[name := providers[name].(apiKey := if name in keys then keys[name] else "")];
        left := left - {name};
      }
    }

    /** The routing part of `validate`. */
    method ValidateRouting() returns (ok: bool)
      ensures ok <==> ValidRouting(providers.Keys, modelList, rules)
    {
      for i := 0 to |modelList|
        invariant forall k :: 0 <= k < i ==> GoodRoute(providers.Keys, modelList[k])
      {
        var route := modelList[i];
        if route.modelName == "" || route.provider == "" {
          return false;
        }
        if route.provider !in providers {
          return false;
        }
        for j := 0 to |route.fallbacks|
          invariant forall k :: 0 <= k < j ==> route.fallbacks[k] in providers
        {
          if route.fallbacks[j] !in providers {
            return false;
          }
        }
      }
      for i := 0 to |rules|
        invariant forall k :: 0 <= k < i ==> GoodRule(providers.Keys, rules[k])
      {
        var rule := rules[i];
        if rule.pattern == "" || rule.provider == "" {
          return false;
        }
        if rule.provider !in providers {
          return false;
        }
        if !HasSuffixStar(rule.pattern) && '/' !in rule.pattern {
          return false;
        }
      }
      return true;
    }
  }

  // ---------- Resolving a model name ----------

  predicate IsQualified(rule: RouteRule, prefix: string) {
    rule.pattern == prefix + "/*"
  }

  predicate IsWildcardFor(rule: RouteRule, model: string) {
    HasSuffixStar(rule.pattern) && rule.pattern[..|rule.pattern| - 1] <= model
  }

  function Qualifies(prefix: string): RouteRule -> bool {
    (rule: RouteRule) => IsQualified(rule, prefix)
  }

  function Matches(model: string): RouteRule -> bool {
    (rule: RouteRule) => IsWildcardFor(rule, model)
  }

  /** The provider of the first rule that satisfies `matches`. */
  function FirstRule(rules: seq<RouteRule>, matches: RouteRule -> bool): (r: Option<string>)
    ensures r.Some? ==> exists i :: 0 <= i < |rules| && matches(rules[i]) && r.value == rules[i].provider
    ensures r.None? ==> forall i :: 0 <= i < |rules| ==> !matches(rules[i])
  {
    if rules == [] then None
    else if matches(rules[0]) then Some(rules[0].provider)
    else FirstRule(rules[1..], matches)
  }

  lemma {:induction false} FirstRuleIs(rules: seq<RouteRule>, matches: RouteRule -> bool, i: nat)
    requires i < |rules| && matches(rules[i]) && forall k :: 0 <= k < i ==> !matches(rules[k])
    ensures FirstRule(rules, matches) == Some(rules[i].provider)
    decreases i
  {
    if i > 0 { FirstRuleIs(rules[1..], matches, i - 1); }
  }

  function ByPrefix(byModel: map<string, string>, rules: seq<RouteRule>, prefix: string): Option<string> {
    if prefix == "" then None
    else
      var qualified := FirstRule(rules, Qualifies(prefix));
      if qualified.Some? then qualified
      else if rules == [] && prefix in byModel.Values then Some(prefix)
      else None
  }

  /** An exact alias wins, then the provider prefix, then the first wildcard rule. */
  function Resolve(byModel: map<string, string>, rules: seq<RouteRule>, model: string): Option<string> {
    if model in byModel && byModel[model] != "" then Some(byModel[model])
    else
      var cut := CutAtSlash(model);
      var prefixed := if cut.Some? then ByPrefix(byModel, rules, cut.value.0) else None;
      if prefixed.Some? then prefixed
      else FirstRule(rules, Matches(model))
  }

  /** `ProviderFor`. The map is visited in an order of its own choosing, which the
      result does not depend on. */
  method ProviderFor(byModel: map<string, string>, rules: seq<RouteRule>, model: string)
    returns (provider: Option<string>)
    ensures provider == Resolve(byModel, rules, model)
  {
    if model in byModel && byModel[model] != "" {
      return Some(byModel[model]);
    }
    var cut := CutAtSlash(model);
    if cut.Some? && cut.value.0 != "" {
      var prefix := cut.value.0;
      provider := ProviderByPrefix(byModel, rules, prefix);
      if provider.Some? {
        return;
      }
    }
    ghost var matches := Matches(model);
    for i := 0 to |rules|
      invariant forall k :: 0 <= k < i ==> !matches(rules[k])
    {
      if HasSuffixStar(rules[i].pattern) && rules[i].pattern[..|rules[i].pattern| - 1] <= model {
        FirstRuleIs(rules, matches, i);
        return Some(rules[i].provider);
      }
    }
    provider := None;
  }

  method ProviderByPrefix(byModel: map<string, string>, rules: seq<RouteRule>, prefix: string)
    returns (provider: Option<string>)
    requires prefix != ""
    ensures provider == ByPrefix(byModel, rules, prefix)
  {
    ghost var matches := Qualifies(prefix);
    for i := 0 to |rules|
      invariant forall k :: 0 <= k < i ==> !matches(rules[k])
    {
      if rules[i].pattern == prefix + "/*" {
        FirstRuleIs(rules, matches, i);
        return Some(rules[i].provider);
      }
    }
    if |rules| == 0 {
      var unvisited := byModel.Keys;
      while unvisited != {}
        invariant unvisited <= byModel.Keys
        invariant forall key :: key in byModel && byModel[key] == prefix ==> key in unvisited
        decreases unvisited
      {
        var key :| key in unvisited;
        if byModel[key] == prefix {
          return Some(prefix);
        }
        unvisited := unvisited - {key};
      }
    }
    return None;
  }

  // ---------- Candidate clients ----------

  function Known(providers: set<string>, names: seq<string>): (known: seq<string>)
    ensures forall name :: name in known ==> name in providers
  {
    if names == [] then []
    else
      var rest := Known(providers, names[..|names| - 1]);
      if names[|names| - 1] in providers then rest + [names[|names| - 1]] else rest
  }

  /** The known names that the breaker let through, each judged by what it knew when asked. */
  ghost function Usable(known: seq<string>, views: seq<B.View>): (usable: seq<string>)
    requires |views| == |known|
    ensures forall name :: name in usable ==> name in known
  {
    if known == [] then []
    else
      var n := |known| - 1;
      var rest := Usable(known[..n], views[..n]);
      if B.Available(views[n].history, known[n], views[n].now) then rest + [known[n]] else rest
  }

  function ClientsOf(providers: map<string, Client>, names: seq<string>): (clients: seq<Client>)
    requires forall name :: name in names ==> name in providers
    ensures |clients| == |names| && forall i :: 0 <= i < |names| ==> clients[i] == providers[names[i]]
  {
    if names == [] then [] else ClientsOf(providers, names[..|names| - 1]) + [providers[names[|names| - 1]]]
  }

  function CandidateNames(byModel: map<string, string>, rules: seq<RouteRule>, list: seq<ModelRoute>,
                          model: string): seq<string> {
    match Resolve(byModel, rules, model)
    case None => []
    case Some(primary) => [primary] + Fallbacks(list, model)
  }

  /** `clientsFor`: the usable ones among primary and fallbacks, in order; the first
      known one if the breaker shuts out all of them; an error if none is known. Other
      requests may mark providers between any two checks. */
  method ClientsFor(providers: map<string, Client>, byModel: map<string, string>, rules: seq<RouteRule>,
                    list: seq<ModelRoute>, breaker: B.Breaker, model: string)
    returns (clients: Option<seq<Client>>, ghost known: seq<string>, ghost views: seq<B.View>)
    requires breaker.Valid()
    modifies breaker
    ensures breaker.Valid() && breaker.own == old(breaker.own)
    ensures B.Before(old(breaker.Seen()), breaker.Seen())
    ensures |views| == |known| && B.Successive(views, old(breaker.Seen()), breaker.Seen())
    ensures known == Known(providers.Keys, CandidateNames(byModel, rules, list, model))
    ensures clients.None? <==> known == []
    ensures clients.Some? ==>
              var usable := Usable(known, views);
              clients.value == ClientsOf(providers, if usable == [] then known[..1] else usable)
  {
    var primaryName := ProviderFor(byModel, rules, model);
    if primaryName.None? {
      return None, [], [];
    }
    var fallbacks := FirstFallbacks(list, model);
    var found, primary;
    found, primary, known, views := Gather(providers, [primaryName.value] + fallbacks, breaker);
    if |found| == 0 {
      if primary.None? {
        return None, known, views;
      }
      found := found + [primary.value];
      assert found == ClientsOf(providers, known[..1]);
    }
    clients := Some(found);
  }

  /** The loop over the candidate names. */
  method Gather(providers: map<string, Client>, names: seq<string>, breaker: B.Breaker)
    returns (found: seq<Client>, primary: Option<Client>, ghost known: seq<string>, ghost views: seq<B.View>)
    requires breaker.Valid()
    modifies breaker
    ensures breaker.Valid() && breaker.own == old(breaker.own)
    ensures B.Before(old(breaker.Seen()), breaker.Seen()) && B.Successive(views, old(breaker.Seen()), breaker.Seen())
    ensures Gathered(providers, names, known, views, found, primary)
  {
    ghost var start := breaker.Seen();
    found, primary, known, views := [], None, [], [];
    for i := 0 to |names|
      invariant breaker.Valid() && breaker.own == old(breaker.own)
      invariant B.Before(start, breaker.Seen()) && B.Successive(views, start, breaker.Seen())
      invariant Gathered(providers, names[..i], known, views, found, primary)
    {
      assert names[..i + 1] == names[..i] + [names[i]];
      found, primary, known, views :=
        Consider(providers, names[i], breaker, found, primary, names[..i], known, views, start);
    }
    assert names[..|names|] == names;
  }

  /** A look at the breaker, which other requests may have changed since the last one. */
  method Ask(breaker: B.Breaker, name: string) returns (available: bool)
    requires breaker.Valid()
    modifies breaker
    ensures breaker.Valid() && breaker.own == old(breaker.own)
    ensures B.Before(old(breaker.Seen()), breaker.Seen())
    ensures available <==> B.Available(breaker.history, name, breaker.clock)
  {
    breaker.Others();
    available := breaker.ProviderAvailable(name);
  }

  /** One candidate name. */
  method Consider(providers: map<string, Client>, name: string, breaker: B.Breaker, found: seq<Client>,
                  primary: Option<Client>,
                  ghost names: seq<string>, ghost known: seq<string>, ghost views: seq<B.View>, ghost start: B.View)
    returns (found': seq<Client>, primary': Option<Client>, ghost known': seq<string>, ghost views': seq<B.View>)
    requires breaker.Valid()
    requires B.Before(start, breaker.Seen()) && B.Successive(views, start, breaker.Seen())
    requires Gathered(providers, names, known, views, found, primary)
    modifies breaker
    ensures breaker.Valid() && breaker.own == old(breaker.own)
    ensures B.Before(start, breaker.Seen()) && B.Successive(views', start, breaker.Seen())
    ensures Gathered(providers, names + [name], known', views', found', primary')
  {
    found', primary', known', views' := found, primary, known, views;
    if name !in providers {
      GatherUnknown(providers, names, known, views, found, primary, name);
      return;
    }
    if primary.None? {
      primary' := Some(providers[name]);
    }
    ghost var latest := breaker.Seen();
    var available := Ask(breaker, name);
    if available {
      found' := found + [providers[name]];
    }
    known', views' := known + [name], views + [breaker.Seen()];
    B.BeforeTransitive(start, latest, breaker.Seen());
    B.SuccessiveNext(views, start, latest, breaker.Seen());
    GatherNext(providers, names, known, views, found, primary, name, breaker.Seen(), found', primary');
  }

  /** After some of the candidate names. */
  ghost predicate Gathered(providers: map<string, Client>, names: seq<string>, known: seq<string>,
                           views: seq<B.View>, found: seq<Client>, primary: Option<Client>) {
    && |views| == |known|
    && known == Known(providers.Keys, names)
    && found == ClientsOf(providers, Usable(known, views))
    && primary == if known == [] then None else Some(providers[known[0]])
  }

  lemma GatherUnknown(providers: map<string, Client>, names: seq<string>, known: seq<string>,
                      views: seq<B.View>, found: seq<Client>, primary: Option<Client>, name: string)
    requires Gathered(providers, names, known, views, found, primary) && name !in providers
    ensures Gathered(providers, names + [name], known, views, found, primary)
  {
    assert (names + [name])[..|names|] == names;
  }

  lemma GatherNext(providers: map<string, Client>, names: seq<string>, known: seq<string>,
                   views: seq<B.View>, found: seq<Client>, primary: Option<Client>, name: string, view: B.View,
                   found': seq<Client>, primary': Option<Client>)
    requires Gathered(providers, names, known, views, found, primary) && name in providers
    requires found' == if B.Available(view.history, name, view.now) then found + [providers[name]] else found
    requires primary' == if primary.None? then Some(providers[name]) else primary
    ensures Gathered(providers, names + [name], known + [name], views + [view], found', primary')
  {
    assert (names + [name])[..|names|] == names;
    assert (known + [name])[..|known|] == known && (views + [view])[..|known|] == views;
    var usable := Usable(known, views);
    assert (usable + [name])[..|usable|] == usable;
  }

  /** The search through the model list in `clientsFor`. */
  method FirstFallbacks(list: seq<ModelRoute>, model: string) returns (names: seq<string>)
    ensures names == Fallbacks(list, model)
  {
    for i := 0 to |list|
      invariant Fallbacks(list, model) == Fallbacks(list[i..], model)
    {
      if list[i].modelName == model {
        return list[i].fallbacks;
      }
    }
    names := [];
  }

  // ---------- Totality under a validated configuration ----------

  lemma {:induction false} KnownAll(providers: set<string>, names: seq<string>)
    requires forall i :: 0 <= i < |names| ==> names[i] in providers
    ensures Known(providers, names) == names
  {
    if names != [] { KnownAll(providers, names[..|names| - 1]); }
  }

  lemma {:induction false} FallbacksKnown(providers: set<string>, list: seq<ModelRoute>, rules: seq<RouteRule>,
                                          model: string)
    requires ValidRouting(providers, list, rules)
    ensures forall i :: 0 <= i < |Fallbacks(list, model)| ==> Fallbacks(list, model)[i] in providers
    ensures Fallbacks(list, model) != [] ==> exists i :: 0 <= i < |list| && list[i].modelName == model
  {
    if list != [] {
      assert GoodRoute(providers, list[0]);
      if list[0].modelName != model {
        FallbacksKnown(providers, list[1..], rules, model);
      }
    }
  }

  lemma ListedModelsResolve(providers: set<string>, list: seq<ModelRoute>, rules: seq<RouteRule>,
                              before: map<string, string>, byModel: map<string, string>, model: string, i: nat)
    requires ValidRouting(providers, list, rules) && RoutesNormalized(before, list, byModel)
    requires i < |list| && list[i].modelName == model
    ensures LastEntry(list, model) >= i
    ensures CandidateNames(byModel, rules, list, model)
            == [list[LastEntry(list, model)].provider] + Fallbacks(list, model)
    ensures Known(providers, CandidateNames(byModel, rules, list, model)) == CandidateNames(byModel, rules, list, model)
  {
    assert GoodRoute(providers, list[i]) && Names(list[i], model);
    var last := LastEntry(list, model);
    assert GoodRoute(providers, list[last]);
    assert Lookup(byModel, model) == RouteOf(before, list, model);
    FallbacksKnown(providers, list, rules, model);
    KnownAll(providers, CandidateNames(byModel, rules, list, model));
  }

  lemma {:induction false} FallbacksAre(list: seq<ModelRoute>, model: string, i: nat)
    requires i < |list| && list[i].modelName == model && forall j :: 0 <= j < i ==> list[j].modelName != model
    ensures Fallbacks(list, model) == list[i].fallbacks
    decreases i
  {
    if i > 0 { FallbacksAre(list[1..], model, i - 1); }
  }

  lemma {:induction false} NoFallbacks(list: seq<ModelRoute>, model: string)
    requires forall j :: 0 <= j < |list| ==> list[j].modelName != model
    ensures Fallbacks(list, model) == []
  {
    if list != [] { NoFallbacks(list[1..], model); }
  }

  /** The candidates of a resolved model: the resolved provider, then the fallbacks of
      its first entry in the configured order, and nobody else. */
  lemma CandidatesAre(byModel: map<string, string>, rules: seq<RouteRule>, list: seq<ModelRoute>, model: string, i: nat)
    requires Resolve(byModel, rules, model).Some?
    requires i <= |list| && forall j :: 0 <= j < i ==> list[j].modelName != model
    requires i < |list| ==> list[i].modelName == model
    ensures
      var names := CandidateNames(byModel, rules, list, model);
      && |names| == 1 + (if i < |list| then |list[i].fallbacks| else 0)
      && names[0] == Resolve(byModel, rules, model).value
      && forall k :: 1 <= k < |names| ==> names[k] == list[i].fallbacks[k - 1]
  {
    if i < |list| {
      FallbacksAre(list, model, i);
    } else {
      NoFallbacks(list, model);
    }
  }

  /** A model of the list is served by the provider of its last entry, and then by the
      fallbacks of its first in the configured order, all of them configured: whatever
      the breaker says, `ClientsFor` has a client for it. */
  lemma ListedModelsAreServed(providers: set<string>, list: seq<ModelRoute>, rules: seq<RouteRule>,
                              before: map<string, string>, byModel: map<string, string>, model: string,
                              first: nat, last: nat)
    requires ValidRouting(providers, list, rules) && RoutesNormalized(before, list, byModel)
    requires first < |list| && list[first].modelName == model
    requires forall j :: 0 <= j < first ==> list[j].modelName != model
    requires last < |list| && list[last].modelName == model
    requires forall j :: last < j < |list| ==> list[j].modelName != model
    ensures
      var names := Known(providers, CandidateNames(byModel, rules, list, model));
      && |names| == 1 + |list[first].fallbacks|
      && names[0] == list[last].provider
      && forall k :: 1 <= k < |names| ==> names[k] == list[first].fallbacks[k - 1]
  {
    ListedModelsResolve(providers, list, rules, before, byModel, model, last);
    FallbacksAre(list, model, first);
  }

  /** Filtering keeps the order and every configured name. */
  lemma {:induction false} KnownJoin(providers: set<string>, a: seq<string>, b: seq<string>)
    ensures Known(providers, a + b) == Known(providers, a) + Known(providers, b)
  {
    if b == [] {
      assert a + b == a;
    } else {
      var front, all := b[..|b| - 1], a + b;
      KnownJoin(providers, a, front);
      assert all[..|all| - 1] == a + front;
    }
  }

  lemma KnownOne(providers: set<string>, name: string)
    ensures Known(providers, [name]) == if name in providers then [name] else []
  {
    assert [name][..0] == [];
  }

  // ---------- What routing means, said of the configuration alone ----------

  /** What validation accepts. */
  lemma ValidIff(providers: set<string>, list: seq<ModelRoute>, rules: seq<RouteRule>)
    ensures ValidRouting(providers, list, rules) <==>
            && (forall route :: route in list ==>
                  && route.modelName != "" && route.provider in providers && route.provider != ""
                  && forall fallback :: fallback in route.fallbacks ==> fallback in providers)
            && (forall rule :: rule in rules ==>
                  && rule.pattern != "" && rule.provider in providers && rule.provider != ""
                  && ('/' in rule.pattern || rule.pattern[|rule.pattern| - 1] == '*'))
  {
    assert forall i :: 0 <= i < |list| ==> list[i] in list;
    assert forall i :: 0 <= i < |rules| ==> rules[i] in rules;
  }

  /** Which provider a listed model is routed to, and that other models keep their route. */
  lemma RoutedToLast(before: map<string, string>, list: seq<ModelRoute>, routes: map<string, string>, model: string,
                     i: nat)
    requires RoutesNormalized(before, list, routes) && model != "" && i <= |list|
    requires forall j :: i <= j < |list| ==> list[j].modelName != model || list[j].provider == ""
    requires i > 0 ==> list[i - 1].modelName == model && list[i - 1].provider != ""
    ensures i > 0 ==> model in routes && routes[model] == list[i - 1].provider
    ensures i == 0 ==> (model in routes <==> model in before) && (model in routes ==> routes[model] == before[model])
  {
    assert Lookup(routes, model) == RouteOf(before, list, model);
    var last := LastEntry(list, model);
    assert i > 0 ==> Names(list[i - 1], model);
  }

  /** Which upstream name a provider has for a listed model, and that other aliases stay. */
  lemma TranslatedByLast(before: map<string, Client>, list: seq<ModelRoute>, providers: map<string, Client>,
                         name: string, model: string, i: nat)
    requires AliasesNormalized(before, list, providers) && name in before && name != "" && model != "" && i <= |list|
    requires forall j :: i <= j < |list| ==>
               list[j].modelName != model || list[j].provider != name || list[j].upstreamModel == ""
    requires i > 0 ==> list[i - 1].modelName == model && list[i - 1].provider == name && list[i - 1].upstreamModel != ""
    ensures
      var aliases := providers[name].aliases;
      if i > 0 then model in aliases && aliases[model] == list[i - 1].upstreamModel
      else (model in aliases <==> model in before[name].aliases)
           && (model in aliases ==> aliases[model] == before[name].aliases[model])
  {
    assert Lookup(providers[name].aliases, model) == AliasOf(before[name].aliases, list, name, model);
    var last := LastTranslation(list, name, model);
    assert i > 0 ==> Translates(list[i - 1], name, model);
  }

  /** An exact route wins. */
  lemma ExactRouteWins(byModel: map<string, string>, rules: seq<RouteRule>, model: string)
    requires model in byModel && byModel[model] != ""
    ensures Resolve(byModel, rules, model) == Some(byModel[model])
  {
  }

  /** Then `prefix/model`: the first rule for that prefix and a star, or without any rules a prefix that
      some route names as its provider. */
  lemma PrefixResolves(byModel: map<string, string>, rules: seq<RouteRule>, prefix: string, rest: string, i: nat)
    requires prefix != "" && '/' !in prefix
    requires
      var model := prefix + "/" + rest;
      model !in byModel || byModel[model] == ""
    ensures i < |rules| && rules[i].pattern == prefix + "/*"
            && (forall j :: 0 <= j < i ==> rules[j].pattern != prefix + "/*") ==>
              Resolve(byModel, rules, prefix + "/" + rest) == Some(rules[i].provider)
    ensures rules == [] ==>
              Resolve(byModel, rules, prefix + "/" + rest)
              == if exists m :: m in byModel && byModel[m] == prefix then Some(prefix) else None
  {
    CutJoin(prefix, rest);
    var matches := Qualifies(prefix);
    if i < |rules| && rules[i].pattern == prefix + "/*"
       && forall j :: 0 <= j < i ==> rules[j].pattern != prefix + "/*"
    {
      FirstRuleIs(rules, matches, i);
    }
  }

  /** Then the first rule that ends in a star and whose rest the model starts with. */
  lemma WildcardResolves(byModel: map<string, string>, rules: seq<RouteRule>, model: string, i: nat)
    requires model !in byModel || byModel[model] == ""
    requires forall prefix, rest, rule ::
               rule in rules && model == prefix + "/" + rest ==> rule.pattern != prefix + "/*"
    requires i <= |rules| && (rules != [] || '/' !in model)
    requires forall j :: 0 <= j < i ==> !StarMatches(rules[j].pattern, model)
    requires i < |rules| ==> StarMatches(rules[i].pattern, model)
    ensures Resolve(byModel, rules, model) == if i < |rules| then Some(rules[i].provider) else None
  {
    NoRuleQualifies(byModel, rules, model);
    FirstMatch(rules, model, i);
  }

  lemma NoRuleQualifies(byModel: map<string, string>, rules: seq<RouteRule>, model: string)
    requires forall prefix, rest, rule ::
               rule in rules && model == prefix + "/" + rest ==> rule.pattern != prefix + "/*"
    requires rules != [] || '/' !in model
    ensures CutAtSlash(model).Some? ==> ByPrefix(byModel, rules, CutAtSlash(model).value.0) == None
  {
    var cut := CutAtSlash(model);
    if cut.Some? {
      var (prefix, rest) := cut.value;
      assert model == prefix + "/" + rest;
      forall j | 0 <= j < |rules| ensures !Qualifies(prefix)(rules[j]) {
        assert rules[j] in rules;
      }
    }
  }

  lemma FirstMatch(rules: seq<RouteRule>, model: string, i: nat)
    requires i <= |rules|
    requires forall j :: 0 <= j < i ==> !StarMatches(rules[j].pattern, model)
    requires i < |rules| ==> StarMatches(rules[i].pattern, model)
    ensures FirstRule(rules, Matches(model)) == if i < |rules| then Some(rules[i].provider) else None
  {
    forall j | 0 <= j < |rules| ensures Matches(model)(rules[j]) <==> StarMatches(rules[j].pattern, model) {
      StarMeaning(rules[j], model);
    }
    if i < |rules| {
      FirstRuleIs(rules, Matches(model), i);
    }
  }

  ghost predicate StarMatches(pattern: string, model: string) {
    exists start :: pattern == start + "*" && start <= model
  }

  lemma StarMeaning(rule: RouteRule, model: string)
    ensures IsWildcardFor(rule, model) <==> StarMatches(rule.pattern, model)
  {
    var pattern := rule.pattern;
    if IsWildcardFor(rule, model) {
      assert pattern == pattern[..|pattern| - 1] + "*";
    }
    if StarMatches(pattern, model) {
      var start :| pattern == start + "*" && start <= model;
      assert pattern[..|pattern| - 1] == start;
    }
  }

  /** What the environment does to a provider. */
  lemma EnvironmentIs(env: map<string, string>, keys: map<string, string>, name: string, c: Client)
    ensures
      var after := FromEnvironment(env, keys, name, c);
      && after.name == c.name && after.kind == c.kind
      && after.apiKey == (if name in keys then keys[name] else "")
      && (name != "ollama" ==> after.aliases == c.aliases)
      && (name == "ollama" ==>
            forall model :: Lookup(after.aliases, model) ==
              if model == "ollama-nomic-embed" && "OLLAMA_EMBEDDING_MODEL" in env && env["OLLAMA_EMBEDDING_MODEL"] != ""
              then Some(env["OLLAMA_EMBEDDING_MODEL"])
              else if model == "ollama-qwen3" && "OLLAMA_CHAT_MODEL" in env && env["OLLAMA_CHAT_MODEL"] != ""
              then Some(env["OLLAMA_CHAT_MODEL"])
              else Lookup(c.aliases, model))
  {
  }

  /** A model that a route rule resolves gets a configured provider. */
  lemma RuledModelsAreServed(providers: set<string>, list: seq<ModelRoute>, rules: seq<RouteRule>,
                             byModel: map<string, string>, model: string)
    requires ValidRouting(providers, list, rules) && rules != []
    requires model !in byModel || byModel[model] == ""
    ensures Resolve(byModel, rules, model).Some? ==> Resolve(byModel, rules, model).value in providers
  {
    assert forall i :: 0 <= i < |rules| ==> GoodRule(providers, rules[i]);
  }

  /** Validation does not look at the plain routes, so a model can still fail to be
      routed: exactly when it resolves to nothing or to a provider that is not configured. */
  lemma ServedIff(providers: set<string>, list: seq<ModelRoute>, rules: seq<RouteRule>,
                  before: map<string, string>, byModel: map<string, string>, model: string)
    requires ValidRouting(providers, list, rules) && RoutesNormalized(before, list, byModel)
    ensures Known(providers, CandidateNames(byModel, rules, list, model)) != []
            <==> Resolve(byModel, rules, model).Some? && Resolve(byModel, rules, model).value in providers
  {
    if i: nat :| i < |list| && list[i].modelName == model {
      ListedModelsResolve(providers, list, rules, before, byModel, model, i);
    } else {
      FallbacksKnown(providers, list, rules, model);
      if Resolve(byModel, rules, model).Some? {
        var primary := Resolve(byModel, rules, model).value;
        assert CandidateNames(byModel, rules, list, model) == [primary];
        assert [primary][..0] == [];
      }
    }
  }

  /** A plain route to an unknown provider passes validation and is not served. */
  lemma PlainRoutesAreNotValidated()
    ensures ValidRouting({}, [], [])
    ensures Resolve(map["m" := "ghost"], [], "m") == Some("ghost")
    ensures Known({}, CandidateNames(map["m" := "ghost"], [], [], "m")) == []
  {
    var names := CandidateNames(map["m" := "ghost"], [], [], "m");
    assert names == ["ghost"] && names[..0] == [];
  }
}
