/** The records exchanged by the template validation service (types.ts). */
module Types {
  import opened Wrappers

  /** `webhookStatus`: `'sent' | 'failed' | 'not_sent'`. */
  datatype WebhookStatus = Sent | Failed | NotSent

  /** `TemplateValidationInput`: both fields are optional strings. */
  datatype ValidationInput = ValidationInput(entityRef: Option<string>, yamlContent: Option<string>)

  /** `TemplateValidationResult`. */
  datatype ValidationResult = ValidationResult(
    entityRef: string,
    passed: bool,
    errors: seq<string>,
    tags: seq<string>,
    description: string,
    owner: string,
    webhookStatus: WebhookStatus)

  /** JavaScript truthiness of an optional string: present and non-empty. */
  predicate Truthy(s: Option<string>) {
    s.Some? && s.value != ""
  }
}
