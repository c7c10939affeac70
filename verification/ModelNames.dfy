/** Model strings: `provider:model`, or `gateway:` followed by a gateway's own spelling of a model. */
module ModelNames {
  import opened Wrappers
  import opened Text

  datatype Kind = Direct | Gateway | Local

  const GATEWAY_PROVIDERS := ["mux-gateway", "openrouter", "github-copilot", "bedrock"]

  function KindOf(provider: string): Option<Kind> {
    if provider in GATEWAY_PROVIDERS then Some(Gateway)
    else if provider in ["anthropic", "openai", "google", "xai", "deepseek"] then Some(Direct)
    else if provider == "ollama" then Some(Local)
    else None
  }

  // How a gateway spells `origin` and `model`; None where it does not parse model ids at all.
  function FromGatewayModelId(gateway: string, id: string): Option<(string, string)> {
    if gateway == "mux-gateway" || gateway == "openrouter" then
      var i := IndexOf(id, '/');
      if i == -1 then None else Some((id[..i], id[i + 1..]))
    else if gateway == "bedrock" then
      var i := IndexOf(id, '.');
      if i <= 0 then None else Some((id[..i], id[i + 1..]))
    else None
  }

  function NormalizeToCanonical(model: string): string {
    var colon := IndexOf(model, ':');
    if colon == -1 || KindOf(model[..colon]) != Some(Gateway) then model
    else
      var parsed := FromGatewayModelId(model[..colon], model[colon + 1..]);
      if parsed.None? || KindOf(parsed.value.0) != Some(Direct) then model
      else parsed.value.0 + ":" + parsed.value.1
  }

  predicate IsValidModelFormat(model: string) {
    0 < IndexOf(model, ':') < |model| - 1
  }

  function ExplicitGatewayPrefix(model: string): Option<string> {
    var t := Trim(model);
    var colon := IndexOf(t, ':');
    if colon <= 0 || colon == |t| - 1 then None
    else if KindOf(t[..colon]) == Some(Gateway) then Some(t[..colon])
    else None
  }

  function NormalizeSelectedModel(model: string): string {
    var t := Trim(model);
    if ExplicitGatewayPrefix(t).Some? then t else NormalizeToCanonical(t)
  }

  lemma DirectNamesHaveNoColon(provider: string)
    requires KindOf(provider) == Some(Direct)
    ensures ':' !in provider
  {
  }

  // A gateway's spelling of a model: its own separator, which is not in the name of the origin.
  predicate Spells(gateway: string, model: string, origin: string, c: char, name: string) {
    && model == gateway + ":" + (origin + [c] + name) && c !in origin
    && (if gateway == "bedrock" then c == '.' && origin != "" else c == '/' && (gateway == "mux-gateway" || gateway == "openrouter"))
  }

  lemma ColonAt(provider: string, rest: string)
    requires ':' !in provider
    ensures IndexOf(provider + ":" + rest, ':') == |provider|
    ensures (provider + ":" + rest)[..|provider|] == provider && (provider + ":" + rest)[|provider| + 1..] == rest
  {
    var model := provider + ":" + rest;
    assert model[..|provider|] == provider;
    IndexOfIs(model, ':', |provider|);
  }

  lemma SeparatorAt(origin: string, c: char, name: string)
    requires c !in origin
    ensures var id := origin + [c] + name; IndexOf(id, c) == |origin| && id[..|origin|] == origin && id[|origin| + 1..] == name
  {
    var id := origin + [c] + name;
    assert id[..|origin|] == origin;
    IndexOfIs(id, c, |origin|);
  }

  // Whatever a gateway spells, of a provider that can be used directly, is canonically that provider's model.
  lemma SpellingsAreCanonical(gateway: string, model: string, origin: string, c: char, name: string)
    requires Spells(gateway, model, origin, c, name) && KindOf(origin) == Some(Direct)
    ensures NormalizeToCanonical(model) == origin + ":" + name
  {
    GatewaysHaveNoColon(gateway);
    ColonAt(gateway, origin + [c] + name);
    SeparatorAt(origin, c, name);
  }

  lemma GatewaysHaveNoColon(gateway: string)
    requires gateway == "mux-gateway" || gateway == "openrouter" || gateway == "bedrock"
    ensures ':' !in gateway && KindOf(gateway) == Some(Gateway)
  {
  }

  lemma CutAt(s: string, c: char)
    requires c in s
    ensures var i := IndexOf(s, c); 0 <= i < |s| && s == s[..i] + [c] + s[i + 1..] && c !in s[..i]
  {
  }

  lemma ParsedIs(gateway: string, id: string)
    requires FromGatewayModelId(gateway, id).Some?
    ensures var origin, name := FromGatewayModelId(gateway, id).value.0, FromGatewayModelId(gateway, id).value.1;
      Spells(gateway, gateway + ":" + id, origin, if gateway == "bedrock" then '.' else '/', name)
  {
    CutAt(id, if gateway == "bedrock" then '.' else '/');
  }

  // Everything else is canonical already.
  lemma OthersAreCanonical(model: string) returns (gateway: string, origin: string, c: char, name: string)
    ensures NormalizeToCanonical(model) == model || (Spells(gateway, model, origin, c, name) && KindOf(origin) == Some(Direct))
  {
    gateway, origin, c, name := "", "", ' ', "";
    if NormalizeToCanonical(model) != model {
      var colon := IndexOf(model, ':');
      CutAt(model, ':');
      gateway := model[..colon];
      ParsedIs(gateway, model[colon + 1..]);
      var parsed := FromGatewayModelId(gateway, model[colon + 1..]).value;
      origin, name, c := parsed.0, parsed.1, if gateway == "bedrock" then '.' else '/';
    }
  }

  lemma CanonicalIsIdempotent(model: string)
    ensures NormalizeToCanonical(NormalizeToCanonical(model)) == NormalizeToCanonical(model)
  {
    var r := NormalizeToCanonical(model);
    if r != model {
      var colon := IndexOf(model, ':');
      var parsed := FromGatewayModelId(model[..colon], model[colon + 1..]).value;
      DirectNamesHaveNoColon(parsed.0);
      assert r[..|parsed.0|] == parsed.0;
      IndexOfIs(r, ':', |parsed.0|);
    }
  }

  // Selecting a model never rewrites it: whatever canonicalising would change is an explicit gateway
  // choice, so all that is left is to trim.
  lemma SelectingOnlyTrims(model: string)
    ensures NormalizeSelectedModel(model) == Trim(model)
  {
    var t := Trim(model);
    TrimTrims(model);
    TrimIsStable(t);
    var colon := IndexOf(t, ':');
    if colon == |t| - 1 && colon >= 0 { assert t[colon + 1..] == ""; }
  }
}
