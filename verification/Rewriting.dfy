/** Rewriting of the client's request for one provider (internal/provider/provider.go:159-238). */
module Rewriting {
  import opened Sequences

  /** A JSON value as far as rewriting looks into it. */
  datatype Json = Str(value: string) | Null | Other(raw: string)

  /** A request body: an object, or bytes that do not decode as one. */
  datatype Body = Object(fields: map<string, Json>) | Malformed(raw: string)

  datatype Client = Client(name: string, apiKey: string, kind: string, aliases: map<string, string>)

  const MODEL := "model"
  const THINK := "think"
  const EFFORT := "reasoning_effort"

  /** `strings.Cut` at the first slash. */
  function CutAtSlash(s: string): (r: Option<(string, string)>)
    ensures r.Some? ==> '/' !in r.value.0 && s == r.value.0 + "/" + r.value.1
    ensures r.None? ==> '/' !in s
  {
    var i := Index(s, "/");
    SlashAt(s);
    if i == -1 then None else Some((s[..i], s[i + 1..]))
  }

  lemma SlashAt(s: string)
    ensures
      var i := Index(s, "/");
      if i == -1 then '/' !in s
      else i < |s| && '/' !in s[..i] && s == s[..i] + "/" + s[i + 1..]
  {
    var i := Index(s, "/");
    forall k | 0 <= k < |s| && (i == -1 || k < i) ensures s[k] != '/' {
      OccursAtElement(s, '/', k);
    }
    if i != -1 {
      OccursAtElement(s, '/', i);
    }
  }

  lemma CutJoin(prefix: string, rest: string)
    requires '/' !in prefix
    ensures CutAtSlash(prefix + "/" + rest) == Some((prefix, rest))
  {
    var s := prefix + "/" + rest;
    var i := Index(s, "/");
    OccursAtElement(s, '/', |prefix|);
    OccursAtElement(s, '/', i);
    assert forall k :: 0 <= k < |prefix| ==> s[k] == prefix[k];
    assert s[..|prefix|] == prefix && s[|prefix| + 1..] == rest;
  }

  /** A model name without the leading `name/`, unless nothing would be left. */
  function Strip(name: string, model: string): string {
    match CutAtSlash(model)
    case Some((prefix, rest)) => if prefix == name && rest != "" then rest else model
    case None => model
  }

  /** `s` is `name/` followed by something, for a name that can be a prefix at all. */
  predicate HasProviderPrefix(name: string, s: string) {
    '/' !in name && name + "/" <= s && |name| + 1 < |s|
  }

  lemma StripMeaning(name: string, model: string)
    ensures Strip(name, model) == if HasProviderPrefix(name, model) then model[|name| + 1..] else model
  {
    var cut := CutAtSlash(model);
    if cut.Some? {
      assert cut.value.0 + "/" <= model;
      assert model[|cut.value.0| + 1..] == cut.value.1;
    }
    if HasProviderPrefix(name, model) {
      assert model == name + "/" + model[|name| + 1..];
      CutJoin(name, model[|name| + 1..]);
    }
  }

  /** The model string of a request; absent and null read as "". */
  function ModelOf(fields: map<string, Json>): string {
    if MODEL in fields && fields[MODEL].Str? then fields[MODEL].value else ""
  }

  function StripFields(name: string, fields: map<string, Json>): map<string, Json> {
    if MODEL in fields && fields[MODEL].Str?
    then fields[MODEL := Str(Strip(name, fields[MODEL].value))] else fields
  }

  function StripBody(name: string, body: Body): Body {
    if body.Object? then Object(StripFields(name, body.fields)) else body
  }

  function AliasFields(aliases: map<string, string>, fields: map<string, Json>): map<string, Json> {
    if ModelOf(fields) in aliases then fields[MODEL := Str(aliases[ModelOf(fields)])] else fields
  }

  /** Ollama is told `think: false` instead of `reasoning_effort: "none"`. */
  function ThinkFields(kind: string, fields: map<string, Json>): map<string, Json> {
    if kind == "ollama" && EFFORT in fields && fields[EFFORT] == Str("none")
    then fields[THINK := Other("false")] - {EFFORT} else fields
  }

  /** What is sent for an embedding request; `None` where preparation fails. */
  function EmbeddingWire(c: Client, body: Body): Option<Body> {
    if c.aliases == map[] then Some(StripBody(c.name, body))
    else if body.Malformed? || (MODEL in body.fields && body.fields[MODEL].Other?) then None
    else Some(Object(StripFields(c.name, AliasFields(c.aliases, body.fields))))
  }

  /** What is sent for a chat request. */
  function ChatWire(c: Client, body: Body): Option<Body> {
    match EmbeddingWire(c, body)
    case None => None
    case Some(Malformed(raw)) => if c.kind == "ollama" then None else Some(Malformed(raw))
    case Some(Object(fields)) => Some(Object(StripFields(c.name, ThinkFields(c.kind, fields))))
  }

  /** `stripProviderPrefix`. */
  method StripProviderPrefix(c: Client, body: Body) returns (prepared: Body)
    ensures prepared == StripBody(c.name, body)
  {
    if body.Malformed? {
      return body;
    }
    var request := body.fields;
    if MODEL !in request {
      return body;
    }
    var model := "";
    match request[MODEL] {
      case Str(value) => model := value;
      case Null =>
      case Other(_) => return body;
    }
    var cut := CutAtSlash(model);
    if cut.None? || cut.value.0 != c.name || cut.value.1 == "" {
      assert request[MODEL].Str? ==> request[MODEL := Str(model)] == request;
      return body;
    }
    request := request[MODEL := Str(cut.value.1)];
    return Object(request);
  }

  /** `prepareModelBody`. */
  method PrepareModelBody(c: Client, body: Body) returns (prepared: Option<Body>)
    ensures prepared == EmbeddingWire(c, body)
  {
    if |c.aliases| == 0 {
      var stripped := StripProviderPrefix(c, body);
      return Some(stripped);
    }
    if body.Malformed? {
      return None;
    }
    var request := body.fields;
    var model := "";
    if MODEL in request {
      match request[MODEL] {
        case Str(value) => model := value;
        case Null =>
        case Other(_) => return None;
      }
    }
    if model in c.aliases {
      request := request[MODEL := Str(c.aliases[model])];
      var stripped := StripProviderPrefix(c, Object(request));
      return Some(stripped);
    }
    var stripped := StripProviderPrefix(c, body);
    return Some(stripped);
  }

  /** `prepareChatBody`. */
  method PrepareChatBody(c: Client, body: Body) returns (prepared: Option<Body>)
    ensures prepared == ChatWire(c, body)
  {
    prepared := PrepareModelBody(c, body);
    if prepared.None? {
      return;
    }
    if c.kind != "ollama" {
      var stripped := StripProviderPrefix(c, prepared.value);
      return Some(stripped);
    }
    if prepared.value.Malformed? {
      return None;
    }
    var request := prepared.value.fields;
    var effort := if EFFORT in request && request[EFFORT].Str? then request[EFFORT].value else "";
    if effort == "none" {
      request := request[THINK := Other("false")];
      request := request - {EFFORT};
    }
    var stripped := StripProviderPrefix(c, Object(request));
    return Some(stripped);
  }

  // ---------- What rewriting preserves ----------

  ghost predicate SameField(a: map<string, Json>, b: map<string, Json>, key: string) {
    (key in a <==> key in b) && (key in a ==> a[key] == b[key])
  }

  /** Embedding requests change in `model` only. */
  lemma EmbeddingKeepsTheRest(c: Client, fields: map<string, Json>)
    requires EmbeddingWire(c, Object(fields)).Some?
    ensures EmbeddingWire(c, Object(fields)).value.Object?
    ensures forall key :: key != "model" ==> SameField(fields, EmbeddingWire(c, Object(fields)).value.fields, key)
  {
  }

  /** Which bodies are refused. */
  lemma RefusedIff(c: Client, body: Body)
    ensures EmbeddingWire(c, body).None? <==>
            c.aliases != map[] && (body.Malformed? || ("model" in body.fields && body.fields["model"].Other?))
    ensures ChatWire(c, body).None? <==> EmbeddingWire(c, body).None? || (body.Malformed? && c.kind == "ollama")
  {
  }

  /** What cannot be decoded is sent as it is, if it is sent. */
  lemma UndecodedIsKept(c: Client, body: Body)
    requires body.Malformed?
    ensures EmbeddingWire(c, body).Some? ==> EmbeddingWire(c, body) == Some(body)
    ensures ChatWire(c, body).Some? ==> ChatWire(c, body) == Some(body)
  {
  }

  /** The model of an embedding request: its alias or itself, without the provider
      prefix; an absent or null model reads as "". */
  lemma ModelSentIs(c: Client, fields: map<string, Json>)
    requires EmbeddingWire(c, Object(fields)).Some?
    ensures
      var sent := EmbeddingWire(c, Object(fields)).value.fields;
      var named := "model" in fields && fields["model"].Str?;
      var model := if named then fields["model"].value else "";
      if model in c.aliases then "model" in sent && sent["model"] == Str(Strip(c.name, c.aliases[model]))
      else if named then "model" in sent && sent["model"] == Str(Strip(c.name, model))
      else SameField(fields, sent, "model")
  {
  }

  /** Chat requests change in `model` only; to Ollama also in `think` and
      `reasoning_effort`, and that exactly when the effort is "none". */
  lemma ChatKeepsTheRest(c: Client, fields: map<string, Json>)
    requires EmbeddingWire(c, Object(fields)).Some?
    ensures ChatWire(c, Object(fields)).Some? && ChatWire(c, Object(fields)).value.Object?
    ensures
      var sent := ChatWire(c, Object(fields)).value.fields;
      if c.kind == "ollama" && "reasoning_effort" in fields && fields["reasoning_effort"] == Str("none")
      then "reasoning_effort" !in sent && "think" in sent && sent["think"] == Other("false")
           && forall key ::
                key != "model" && key != "think" && key != "reasoning_effort" ==> SameField(fields, sent, key)
      else forall key :: key != "model" ==> SameField(fields, sent, key)
  {
    KeysDiffer();
    var prepared := EmbeddingWire(c, Object(fields)).value.fields;
    var thought := ThinkFields(c.kind, prepared);
    var sent := StripFields(c.name, thought);
    EmbeddingKeepsTheRest(c, fields);
    assert SameField(fields, prepared, EFFORT);
    forall key | key != MODEL && (thought == prepared || (key != THINK && key != EFFORT))
      ensures SameField(fields, sent, key)
    {
      assert SameField(fields, prepared, key);
      assert SameField(prepared, thought, key);
      StripKeeps(c.name, thought, key);
    }
    StripKeeps(c.name, thought, EFFORT);
    StripKeeps(c.name, thought, THINK);
  }

  lemma KeysDiffer()
    ensures MODEL != THINK && MODEL != EFFORT && THINK != EFFORT
  {
    assert MODEL[0] != THINK[0];
    assert |EFFORT| != |MODEL| && |EFFORT| != |THINK|;
  }

  lemma StripKeeps(name: string, fields: map<string, Json>, key: string)
    ensures key != MODEL ==> SameField(fields, StripFields(name, fields), key)
  {
  }

  function Aliased(c: Client, model: string): string {
    if model in c.aliases then c.aliases[model] else model
  }

  lemma ModelsSent(c: Client, fields: map<string, Json>)
    requires MODEL in fields && fields[MODEL].Str?
    ensures EmbeddingWire(c, Object(fields)).Some? && ChatWire(c, Object(fields)).Some?
    ensures
      var aliased := Aliased(c, fields[MODEL].value);
      && ModelOf(EmbeddingWire(c, Object(fields)).value.fields) == Strip(c.name, aliased)
      && ModelOf(ChatWire(c, Object(fields)).value.fields) == Strip(c.name, Strip(c.name, aliased))
  {
    var embedding := EmbeddingWire(c, Object(fields)).value.fields;
    assert embedding[MODEL] == Str(Strip(c.name, Aliased(c, fields[MODEL].value)));
    assert ThinkFields(c.kind, embedding)[MODEL] == embedding[MODEL];
  }

  /** Chat strips the provider prefix twice and embedding once, so the two send the
      same model exactly when the aliased name does not repeat the prefix. */
  lemma SameModelIff(c: Client, fields: map<string, Json>)
    requires MODEL in fields && fields[MODEL].Str?
    ensures EmbeddingWire(c, Object(fields)).Some? && ChatWire(c, Object(fields)).Some?
    ensures
      ModelOf(EmbeddingWire(c, Object(fields)).value.fields) == ModelOf(ChatWire(c, Object(fields)).value.fields)
      <==> !RepeatsPrefix(c.name, Aliased(c, fields[MODEL].value))
  {
    ModelsSent(c, fields);
    StripTwice(c.name, Aliased(c, fields[MODEL].value));
  }

  /** `name/name/` followed by something. */
  predicate RepeatsPrefix(name: string, s: string) {
    '/' !in name && name + "/" + name + "/" <= s && 2 * |name| + 2 < |s|
  }

  lemma StripTwice(name: string, s: string)
    ensures Strip(name, Strip(name, s)) == Strip(name, s) <==> !RepeatsPrefix(name, s)
  {
    StripMeaning(name, s);
    StripMeaning(name, Strip(name, s));
    RepeatedPrefix(name, s);
  }

  lemma RepeatedPrefix(name: string, s: string)
    ensures HasProviderPrefix(name, s) && HasProviderPrefix(name, s[|name| + 1..]) <==> RepeatsPrefix(name, s)
  {
    var once, twice := name + "/", name + "/" + name + "/";
    assert twice == once + once;
    if once <= s {
      assert s == once + s[|once|..];
    }
  }

  const REPEATING := Client("p", "key", "openai-compatible", map["m" := "p/p/x"])

  lemma StripRepeated()
    ensures Strip("p", "p/p/x") == "p/x" && Strip("p", "p/x") == "x"
  {
    StripMeaning("p", "p/p/x");
    assert "p/p/x" == "p" + "/" + "p/x" && "p/p/x"[2..] == "p/x";
    StripMeaning("p", "p/x");
    assert "p/x" == "p" + "/" + "x" && "p/x"[2..] == "x";
  }

  /** What is sent for a request that holds nothing but its model. */
  lemma ModelOnly(c: Client, model: string)
    requires c.kind != "ollama"
    ensures
      var request, aliased := Object(map[MODEL := Str(model)]), Aliased(c, model);
      && EmbeddingWire(c, request) == Some(Object(map[MODEL := Str(Strip(c.name, aliased))]))
      && ChatWire(c, request) == Some(Object(map[MODEL := Str(Strip(c.name, Strip(c.name, aliased)))]))
  {
    var fields, aliased := map[MODEL := Str(model)], Aliased(c, model);
    assert AliasFields(c.aliases, fields) == map[MODEL := Str(aliased)];
    assert StripFields(c.name, map[MODEL := Str(aliased)]) == map[MODEL := Str(Strip(c.name, aliased))];
    StripTwiceFields(c.name, aliased);
  }

  lemma StripTwiceFields(name: string, model: string)
    ensures StripFields(name, map[MODEL := Str(Strip(name, model))])
            == map[MODEL := Str(Strip(name, Strip(name, model)))]
  {
  }

  /** The two do differ for some request: an aliased name can repeat the prefix. */
  lemma ModelsCanDiffer()
    ensures
      var request := Object(map[MODEL := Str("m")]);
      && EmbeddingWire(REPEATING, request) == Some(Object(map[MODEL := Str("p/x")]))
      && ChatWire(REPEATING, request) == Some(Object(map[MODEL := Str("x")]))
  {
    StripRepeated();
    KindsDiffer();
    ModelOnly(REPEATING, "m");
  }

  lemma KindsDiffer()
    ensures "openai-compatible" != "ollama"
  {
    assert |"openai-compatible"| != |"ollama"|;
  }
}
