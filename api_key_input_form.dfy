/** The pure logic of the LLM-provider settings form: the validators of
    its fields, which fields each provider's card shows, the options of
    the default-model menu, and when errors, model toggles and the submit
    button are shown. Field state itself belongs to the form library and
    enters here as parameters. */
module ApiKeyInputForm {
  import opened Common
  import opened JsText

  /** A model offered by a provider. */
  datatype Model = Model(id: string, name: string, enabled: bool)

  /** A provider's stored settings; `models` may be absent. */
  datatype ProviderSettings = ProviderSettings(enabled: bool, models: Option<seq<Model>>)

  /** The providers in `Object.entries` order, keyed by provider name. */
  type Providers = seq<(string, ProviderSettings)>

  // ---------------------------------------------------------------------
  // Validators

  /** The `onChange` validator of the generic API-key field. */
  function ApiKeyError(providerName: string, value: string): (r: Option<string>)
    ensures providerName == "OpenAI" ==> (r.Some? <==> !StartsWith(value, "sk-"))
    ensures providerName == "Anthropic" ==> (r.Some? <==> !StartsWith(value, "sk-ant"))
    ensures providerName != "OpenAI" && providerName != "Anthropic" ==> r.None?
  {
    if providerName == "OpenAI" && !StartsWith(value, "sk-") then
      Some("OpenAI API key must start with \"sk-\"")
    else if providerName == "Anthropic" && !StartsWith(value, "sk-ant") then
      Some("Anthropic API key must start with \"sk-ant\"")
    else None
  }

  /** Every Anthropic key the form accepts also passes the OpenAI check. */
  lemma AcceptedAnthropicKeyStartsWithSk(value: string)
    requires ApiKeyError("Anthropic", value).None?
    ensures StartsWith(value, "sk-")
    ensures ApiKeyError("OpenAI", value).None?
  {
    assert "sk-" == "sk-ant"[..3];
  }

  /** The regular expression `^https?:\/\/`, matched at the start of the
      value: "http", an optional "s", then "://". */
  predicate MatchesHttpScheme(value: string) {
    |value| >= 4 && value[..4] == "http" &&
    var rest := value[4..];
    StartsWith(rest, "://") || (|rest| >= 1 && rest[0] == 's' && StartsWith(rest[1..], "://"))
  }

  /** The pattern matches exactly the values that begin with "http://" or
      "https://". */
  lemma MatchesHttpSchemeIff(value: string)
    ensures MatchesHttpScheme(value) <==> StartsWith(value, "http://") || StartsWith(value, "https://")
  {
    if StartsWith(value, "http://") {
      assert value[..4] == "http" && value[4..][..3] == "://";
    }
    if StartsWith(value, "https://") {
      assert value[..4] == "http" && value[4..][0] == 's' && value[4..][1..][..3] == "://";
    }
    if MatchesHttpScheme(value) {
      var rest := value[4..];
      if StartsWith(rest, "://") {
        assert value[..7] == value[..4] + rest[..3];
      } else {
        assert value[..8] == value[..4] + [rest[0]] + rest[1..][..3];
      }
    }
  }

  /** The Ollama base-URL validator. */
  function BaseUrlError(value: string): (r: Option<string>)
    ensures r.None? <==> StartsWith(value, "http://") || StartsWith(value, "https://")
  {
    MatchesHttpSchemeIff(value);
    if !MatchesHttpScheme(value) then Some("Base URL must start with http:// or https://") else None
  }

  /** The Azure endpoint validator. */
  function AzureEndpointError(value: string): (r: Option<string>)
    ensures r.None? <==> StartsWith(value, "http://") || StartsWith(value, "https://")
  {
    MatchesHttpSchemeIff(value);
    if !MatchesHttpScheme(value) then Some("Azure Endpoint must start with http:// or https://") else None
  }

  // ---------------------------------------------------------------------
  // Fields of a provider card

  datatype FieldName = EnabledField | ApiKeyField | BaseUrlField | AzureEndpointField | AzureDeploymentField

  datatype Validator = NoValidator | ApiKeyValidator | BaseUrlValidator | AzureEndpointValidator

  /** The fields a provider's card renders (the model toggles aside), each
      with its validator, in the order they appear. */
  function CardFields(providerName: string): (r: seq<(FieldName, Validator)>)
    ensures |r| > 0 && r[0] == (EnabledField, NoValidator)
    ensures (ApiKeyField, ApiKeyValidator) in r <==>
      providerName != "WebLLM" && providerName != "Ollama" && providerName != "Azure"
    ensures (BaseUrlField, BaseUrlValidator) in r <==> providerName == "Ollama"
    ensures (AzureEndpointField, AzureEndpointValidator) in r <==> providerName == "Azure"
    ensures providerName == "Azure" ==>
      (ApiKeyField, NoValidator) in r && (AzureDeploymentField, NoValidator) in r
    ensures forall f :: f in r && f.0 == ApiKeyField && f.1 != ApiKeyValidator ==> providerName == "Azure"
  {
    [(EnabledField, NoValidator)] +
    (if providerName != "WebLLM" && providerName != "Ollama" && providerName != "Azure"
     then [(ApiKeyField, ApiKeyValidator)] else []) +
    (if providerName == "Ollama" then [(BaseUrlField, BaseUrlValidator)] else []) +
    (if providerName == "Azure"
     then [(AzureEndpointField, AzureEndpointValidator), (AzureDeploymentField, NoValidator), (ApiKeyField, NoValidator)]
     else [])
  }

  /** What a validator reports for a value. */
  function Check(providerName: string, v: Validator, value: string): Option<string> {
    match v
    case NoValidator => None
    case ApiKeyValidator => ApiKeyError(providerName, value)
    case BaseUrlValidator => BaseUrlError(value)
    case AzureEndpointValidator => AzureEndpointError(value)
  }

  /** The Azure card's API key and deployment name accept any value. */
  lemma AzureKeyAndDeploymentUnchecked(field: (FieldName, Validator), value: string)
    requires field in CardFields("Azure")
    requires field.0 == ApiKeyField || field.0 == AzureDeploymentField
    ensures Check("Azure", field.1, value).None?
  {
  }

  /** Whatever its provider, a rendered field accepts a value exactly when
      its own rule does: the OpenAI or Anthropic prefix, or an http(s)
      scheme. */
  lemma RenderedFieldRule(providerName: string, field: (FieldName, Validator), value: string)
    requires field in CardFields(providerName)
    ensures field.0 == ApiKeyField && providerName == "OpenAI" ==>
      (Check(providerName, field.1, value).None? <==> StartsWith(value, "sk-"))
    ensures field.0 == ApiKeyField && providerName == "Anthropic" ==>
      (Check(providerName, field.1, value).None? <==> StartsWith(value, "sk-ant"))
    ensures field.0 == BaseUrlField || field.0 == AzureEndpointField ==>
      (Check(providerName, field.1, value).None? <==> StartsWith(value, "http://") || StartsWith(value, "https://"))
    ensures field.0 == EnabledField || field.0 == AzureDeploymentField ==> Check(providerName, field.1, value).None?
  {
  }

  // ---------------------------------------------------------------------
  // Default-model options

  datatype SelectOption = SelectOption(value: string, caption: string)

  /** The option for one model of a provider. */
  function OptionFor(providerName: string, m: Model): SelectOption {
    SelectOption(providerName + ":" + m.id, providerName + " - " + m.name)
  }

  /** `provider.models?.map(…) || []` */
  function ModelOptions(providerName: string, models: Option<seq<Model>>): (r: seq<SelectOption>)
    ensures models.None? ==> r == []
    ensures models.Some? ==> (|r| == |models.value| &&
      forall i :: 0 <= i < |r| ==> r[i] == OptionFor(providerName, models.value[i]))
  {
    match models
    case None => []
    case Some(ms) => seq(|ms|, i requires 0 <= i < |ms| => OptionFor(providerName, ms[i]))
  }

  /** The number of models a provider contributes. */
  function ModelCount(models: Option<seq<Model>>): nat {
    if models.None? then 0 else |models.value|
  }

  function TotalModels(entries: Providers): nat
    decreases |entries|
  {
    if entries == [] then 0 else ModelCount(entries[0].1.models) + TotalModels(entries[1..])
  }

  /** The `flatMap` over the provider entries. */
  function FlatOptions(entries: Providers): (r: seq<SelectOption>)
    ensures |r| == TotalModels(entries)
    decreases |entries|
  {
    if entries == [] then []
    else ModelOptions(entries[0].0, entries[0].1.models) + FlatOptions(entries[1..])
  }

  /** `defaultModelOptions`; no providers loaded yet means no options. */
  function DefaultModelOptions(providers: Option<Providers>): (r: seq<SelectOption>)
    ensures providers.None? ==> r == []
    ensures providers.Some? ==> |r| == TotalModels(providers.value)
  {
    FlatOptions(if providers.None? then [] else providers.value)
  }

  lemma {:induction false} TotalModelsConcat(a: Providers, b: Providers)
    ensures TotalModels(a + b) == TotalModels(a) + TotalModels(b)
    decreases |a|
  {
    if a == [] {
      assert a + b == b;
    } else {
      assert (a + b)[0] == a[0];
      assert (a + b)[1..] == a[1..] + b;
      TotalModelsConcat(a[1..], b);
    }
  }

  /** The options of a list of providers are those of its parts, in order. */
  lemma {:induction false} FlatOptionsConcat(a: Providers, b: Providers)
    ensures FlatOptions(a + b) == FlatOptions(a) + FlatOptions(b)
    decreases |a|
  {
    if a == [] {
      assert a + b == b;
    } else {
      assert (a + b)[0] == a[0];
      assert (a + b)[1..] == a[1..] + b;
      FlatOptionsConcat(a[1..], b);
    }
  }

  /** Provider j's model i sits right after the models of the providers
      before j: providers in order, then models in order. */
  lemma OptionPosition(entries: Providers, j: nat, i: nat)
    requires j < |entries| && entries[j].1.models.Some? && i < |entries[j].1.models.value|
    ensures TotalModels(entries[..j]) + i < |FlatOptions(entries)|
    ensures FlatOptions(entries)[TotalModels(entries[..j]) + i] ==
      OptionFor(entries[j].0, entries[j].1.models.value[i])
  {
    var before, here, after := entries[..j], [entries[j]], entries[j + 1..];
    var mine := ModelOptions(entries[j].0, entries[j].1.models);
    assert FlatOptions(here) == mine by {
      assert here[1..] == [];
    }
    assert entries == before + here + after;
    calc {
      FlatOptions(entries);
      { FlatOptionsConcat(before + here, after); }
      FlatOptions(before + here) + FlatOptions(after);
      { FlatOptionsConcat(before, here); }
      FlatOptions(before) + mine + FlatOptions(after);
    }
    assert |FlatOptions(before)| == TotalModels(before);
  }

  /** A provider without models adds no option. */
  lemma ProviderWithoutModels(a: Providers, name: string, settings: ProviderSettings, b: Providers)
    requires settings.models.None? || settings.models == Some([])
    ensures FlatOptions(a + [(name, settings)] + b) == FlatOptions(a + b)
  {
    var here := [(name, settings)];
    assert FlatOptions(here) == [] by {
      assert here[1..] == [];
    }
    calc {
      FlatOptions(a + here + b);
      { FlatOptionsConcat(a + here, b); }
      FlatOptions(a + here) + FlatOptions(b);
      { FlatOptionsConcat(a, here); }
      FlatOptions(a) + [] + FlatOptions(b);
      { assert FlatOptions(a) + [] == FlatOptions(a); }
      FlatOptions(a) + FlatOptions(b);
      { FlatOptionsConcat(a, b); }
      FlatOptions(a + b);
    }
  }

  /** The form's initial default model: the stored one, or "Loading..."
      while none (or an empty one) is known. */
  function InitialDefaultModel(stored: Option<string>): (r: string)
    ensures r != ""
    ensures stored.Some? && stored.value != "" ==> r == stored.value
  {
    if stored.None? || stored.value == "" then "Loading..." else stored.value
  }

  // ---------------------------------------------------------------------
  // What the form shows

  /** What the form library reports about a field. */
  datatype FieldMeta = FieldMeta(isTouched: bool, errors: seq<string>, isValidating: bool)

  /** A line of `FieldInfo`. */
  datatype InfoLine = ErrorLine(text: string) | ValidatingLine

  /** `FieldInfo`: the errors, joined with ", ", once the field is touched,
      and a notice while it validates. */
  function FieldInfo(meta: FieldMeta): (r: seq<InfoLine>)
    ensures (exists k :: 0 <= k < |r| && r[k].ErrorLine?) <==> meta.isTouched && |meta.errors| > 0
    ensures (exists k :: 0 <= k < |r| && r[k] == ValidatingLine) <==> meta.isValidating
    ensures forall k :: 0 <= k < |r| && r[k].ErrorLine? ==> r[k].text == Join(meta.errors, ", ")
  {
    var errorLine := if meta.isTouched && |meta.errors| > 0 then [ErrorLine(Join(meta.errors, ", "))] else [];
    var r := errorLine + (if meta.isValidating then [ValidatingLine] else []);
    assert meta.isTouched && |meta.errors| > 0 ==> r[0].ErrorLine?;
    assert meta.isValidating ==> r[|r| - 1] == ValidatingLine;
    r
  }

  /** The joined text shows the first error first and, for a single
      error, is that error. */
  lemma ErrorTextShape(errors: seq<string>)
    requires |errors| > 0
    ensures errors[0] <= Join(errors, ", ")
    ensures |errors| == 1 ==> Join(errors, ", ") == errors[0]
  {
  }

  /** A model's switch in a provider card. */
  datatype ModelToggle = ModelToggle(key: string, caption: string)

  /** The model toggles, shown only while the provider's `enabled` field
      is on. */
  function ModelToggles(enabledNow: bool, models: Option<seq<Model>>): (r: seq<ModelToggle>)
    ensures !enabledNow || models.None? ==> r == []
    ensures enabledNow && models.Some? ==> (|r| == |models.value| &&
      forall i :: 0 <= i < |r| ==> r[i] == ModelToggle(models.value[i].id, models.value[i].name))
  {
    if !enabledNow || models.None? then []
    else seq(|models.value|, i requires 0 <= i < |models.value| => ModelToggle(models.value[i].id, models.value[i].name))
  }

  /** An enabled provider's toggles and its default-model options
      describe the same models in the same order: toggle i has the model id
      that option i carries after "provider:", and every toggle sits in the
      flattened option list right after the models of the providers before
      it. */
  lemma TogglesMatchOptions(entries: Providers, j: nat, i: nat)
    requires j < |entries| && entries[j].1.models.Some? && i < |entries[j].1.models.value|
    ensures var toggles := ModelToggles(true, entries[j].1.models);
      i < |toggles| &&
      |toggles| == |ModelOptions(entries[j].0, entries[j].1.models)| &&
      TotalModels(entries[..j]) + i < |FlatOptions(entries)| &&
      FlatOptions(entries)[TotalModels(entries[..j]) + i] ==
        SelectOption(entries[j].0 + ":" + toggles[i].key, entries[j].0 + " - " + toggles[i].caption)
  {
    OptionPosition(entries, j, i);
  }

  /** The submit button: disabled exactly when the form cannot submit. */
  datatype SubmitButton = SubmitButton(disabled: bool, caption: string)

  function SubmitButtonFor(canSubmit: bool, isSubmitting: bool): (r: SubmitButton)
    ensures r.disabled <==> !canSubmit
    ensures r.caption == (if isSubmitting then "..." else "Save Changes")
  {
    SubmitButton(!canSubmit, if isSubmitting then "..." else "Save Changes")
  }
}
