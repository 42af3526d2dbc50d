/** src/utils.js: the error envelope the gateway answers with on failure, and the two validators. */
module Utils {
  import opened Wrappers
  import opened JsValue

  const FriendlyMessage := "Something went wrong. Please try again later."

  /** `handleApiError(error)` for a thrown error whose message is `message`: the user-facing
      envelope, which carries the original message only as `details`. */
  function HandleApiError(message: string): (r: Value)
    ensures r.Obj? && r.fields.Keys == {"error", "message", "details"}
    ensures Prop(r, "error") == Ok(Bool(true)) && Prop(r, "message") == Ok(Str(FriendlyMessage))
    ensures Prop(r, "details") == Ok(Str(message))
  {
    Obj(map["error" := Bool(true), "message" := Str(FriendlyMessage), "details" := Str(message)])
  }

  /** `validateRequired(value, name)`. */
  function ValidateRequired(value: Value, name: string): (r: Result<Value>)
    ensures r.Ok? <==> Truthy(value)
    ensures r.Ok? ==> r.value == value
    ensures r.Err? ==> r.error == Error(name + " is required")
  {
    if !Truthy(value) then Err(Error(name + " is required")) else Ok(value)
  }

  const DomainPlaceholder := "your-store.myshopify.com"
  const TokenPlaceholder := "your-storefront-access-token"
  const DomainError := "SHOPIFY_DOMAIN must be configured"
  const TokenError := "STOREFRONT_TOKEN must be configured"

  /** An environment variable is set to something other than the empty string and the placeholder.
      None stands for an unset variable. */
  predicate Configured(setting: Option<string>, placeholder: string) {
    setting.Some? && setting.value != "" && setting.value != placeholder
  }

  /** The problems validateConfig reports, domain first. */
  function ConfigErrors(domain: Option<string>, token: Option<string>): (errs: seq<string>)
    ensures DomainError in errs <==> !Configured(domain, DomainPlaceholder)
    ensures TokenError in errs <==> !Configured(token, TokenPlaceholder)
    ensures forall i :: 0 <= i < |errs| ==> errs[i] == DomainError || errs[i] == TokenError
    ensures forall i, j :: 0 <= i < j < |errs| ==> errs[i] == DomainError && errs[j] == TokenError
  {
    (if Configured(domain, DomainPlaceholder) then [] else [DomainError])
    + (if Configured(token, TokenPlaceholder) then [] else [TokenError])
  }

  /** `validateConfig()` with the two environment variables as parameters: the errors array is
      built by successive pushes and thrown joined if non-empty. */
  method ValidateConfig(domain: Option<string>, token: Option<string>) returns (r: Result<()>)
    ensures var errs := ConfigErrors(domain, token);
      r == if errs == [] then Ok(()) else Err(Error("Configuration errors: " + Join(errs, ", ")))
  {
    var errors: seq<string> := [];
    if domain.None? || domain.value == "" || domain.value == DomainPlaceholder {
      errors := errors + [DomainError];
    }
    if token.None? || token.value == "" || token.value == TokenPlaceholder {
      errors := errors + [TokenError];
    }
    if |errors| > 0 {
      return Err(Error("Configuration errors: " + Join(errors, ", ")));
    }
    return Ok(());
  }

  /** The message of the thrown error when both settings are missing. */
  lemma BothMissingMessage(domain: Option<string>, token: Option<string>)
    requires !Configured(domain, DomainPlaceholder) && !Configured(token, TokenPlaceholder)
    ensures Join(ConfigErrors(domain, token), ", ") == DomainError + ", " + TokenError
  {
    assert ConfigErrors(domain, token) == [DomainError, TokenError];
    JoinTwo(DomainError, TokenError, ", ");
  }

  lemma JoinTwo(a: string, b: string, sep: string)
    ensures Join([a, b], sep) == a + sep + b
  {
    assert [a, b][1..] == [b];
  }
}
