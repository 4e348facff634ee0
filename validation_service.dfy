/** The template validation service (createTemplateValidationService.ts).

    `validateTemplate` extracts description, owner and tags from a YAML
    document (or takes an entity reference as it is), records which of them
    are missing, appends the result to an in-memory list, then reports the
    webhook's outcome on the stored result and hands it to an optional
    broadcast sink. `yaml.parse`, the webhook POST and the sink are outside
    this model: the first two are parameters, the sink is a log of its calls. */
module TemplateValidation {
  import opened Wrappers
  import opened Types

  const MissingDescription: string := "Missing description"
  const MissingOwner: string := "Missing owner"
  const MissingTags: string := "Missing tags"

  /** Prefix of the single error recorded when the `try` block throws. */
  const FetchFailedPrefix: string := "YAML parsing or entity fetch failed: "

  /** The messages of the `TypeError`s the entity reference template throws
      when `kind` or `metadata` is absent (V8's wording). */
  const KindUndefinedMessage: string := "Cannot read properties of undefined (reading 'toLowerCase')"
  const MetadataUndefinedMessage: string := "Cannot read properties of undefined (reading 'namespace')"

  /** The parts of a parsed catalog entity the service reads; every field may be absent. */
  datatype Metadata = Metadata(
    name: Option<string>,
    namespace: Option<string>,
    description: Option<string>,
    tags: Option<seq<string>>)

  datatype EntitySpec = EntitySpec(owner: Option<string>)

  datatype Entity = Entity(kind: Option<string>, metadata: Option<Metadata>, spec: Option<EntitySpec>)

  /** What `yaml.parse` does with a non-empty document: yields a truthy value
      (read as an entity whose absent fields are `undefined`), yields a falsy
      value (`null`, `false`, `0`, `""`), or throws. */
  datatype YamlParse = ParsedEntity(entity: Entity) | ParsedFalsy | ParseError(message: string)

  /** What `sendValidationWebhook` does: resolves to `'sent'`, resolves to `'failed'`, or throws. */
  datatype WebhookOutcome = Delivered | Rejected | Raised

  /** The status the service stores for a webhook outcome: a thrown error counts as `'failed'`. */
  function WebhookStatusOf(w: WebhookOutcome): (s: WebhookStatus)
    ensures s != NotSent
    ensures s == Sent <==> w == Delivered
  {
    match w
    case Delivered => Sent
    case Rejected => Failed
    case Raised => Failed
  }

  predicate IsAsciiUpper(c: char) {
    'A' <= c <= 'Z'
  }

  /** `toLowerCase` on the ASCII letters. */
  function Lower(s: string): (r: string)
    ensures |r| == |s|
    ensures forall k :: 0 <= k < |r| ==> !IsAsciiUpper(r[k])
    ensures forall k :: 0 <= k < |s| && !IsAsciiUpper(s[k]) ==> r[k] == s[k]
    ensures forall k :: 0 <= k < |s| && IsAsciiUpper(s[k]) ==> r[k] as int == s[k] as int + 32
  {
    seq(|s|, k requires 0 <= k < |s| => if IsAsciiUpper(s[k]) then (s[k] as int + 32) as char else s[k])
  }

  /** `entity.metadata.namespace || 'default'`. */
  function NamespaceText(namespace: Option<string>): (text: string)
    ensures text != ""
    ensures Truthy(namespace) ==> text == namespace.value
    ensures !Truthy(namespace) ==> text == "default"
  {
    if Truthy(namespace) then namespace.value else "default"
  }

  /** `${entity.metadata.name}`: an absent name prints as `undefined`. */
  function NameText(name: Option<string>): (text: string)
    ensures name.Some? ==> text == name.value
    ensures name.None? ==> text == "undefined"
  {
    if name.Some? then name.value else "undefined"
  }

  /** The entity reference template: `lower(kind):namespace/name`. Reading
      `toLowerCase` of an absent kind, or `namespace` of absent metadata, throws. */
  function EntityRefOf(e: Entity): (r: Result<string, string>)
    ensures r.Failure? <==> e.kind.None? || e.metadata.None?
    ensures r.Failure? ==> r.error == (if e.kind.None? then KindUndefinedMessage else MetadataUndefinedMessage)
  {
    match e.kind
    case None => Failure(KindUndefinedMessage)
    case Some(kind) =>
      match e.metadata
      case None => Failure(MetadataUndefinedMessage)
      case Some(md) => Success(Lower(kind) + ":" + NamespaceText(md.namespace) + "/" + NameText(md.name))
  }

  /** `entity.metadata?.tags || []`: the entity's tags when it has any
      list, otherwise an empty list. */
  function TagsOf(e: Entity): (tags: seq<string>)
    ensures e.metadata.Some? && e.metadata.value.tags.Some? ==> tags == e.metadata.value.tags.value
    ensures tags != [] ==> e.metadata.Some? && e.metadata.value.tags.Some?
  {
    if e.metadata.Some? && e.metadata.value.tags.Some? then e.metadata.value.tags.value else []
  }

  /** `entity.metadata?.description || ''`: the description when it is
      present and non-empty, otherwise `''`. */
  function DescriptionOf(e: Entity): (description: string)
    ensures description != "" <==> e.metadata.Some? && Truthy(e.metadata.value.description)
    ensures description != "" ==> description == e.metadata.value.description.value
  {
    if e.metadata.Some? && Truthy(e.metadata.value.description) then e.metadata.value.description.value else ""
  }

  /** `entity.spec?.owner || ''`: the owner when it is present and
      non-empty, otherwise `''`. */
  function OwnerOf(e: Entity): (owner: string)
    ensures owner != "" <==> e.spec.Some? && Truthy(e.spec.value.owner)
    ensures owner != "" ==> owner == e.spec.value.owner.value
  {
    if e.spec.Some? && Truthy(e.spec.value.owner) then e.spec.value.owner.value else ""
  }

  /** The four fields the `try` block sets before the checks run. */
  datatype Extraction = Extraction(entityRef: string, tags: seq<string>, description: string, owner: string)

  /** What the `try` block extracts from the input, or the message it throws.
      A non-empty `yamlContent` wins; otherwise a non-empty `entityRef` is
      copied without resolving any entity. */
  function Extract(input: ValidationInput, parse: string -> YamlParse): (r: Result<Extraction, string>)
    ensures r.Failure? ==> Truthy(input.yamlContent)
    ensures !Truthy(input.yamlContent) ==>
      r.Success? && r.value.tags == [] && r.value.description == "" && r.value.owner == "" &&
      (r.value.entityRef != "" <==> Truthy(input.entityRef)) &&
      (Truthy(input.entityRef) ==> r.value.entityRef == input.entityRef.value)
    ensures Truthy(input.yamlContent) && r.Success? && r.value.entityRef == "" ==>
      parse(input.yamlContent.value) == ParsedFalsy
    ensures Truthy(input.yamlContent) && parse(input.yamlContent.value).ParseError? ==>
      r == Failure(parse(input.yamlContent.value).message)
    ensures (Truthy(input.yamlContent) && parse(input.yamlContent.value).ParsedEntity? &&
             EntityRefOf(parse(input.yamlContent.value).entity).Failure?) ==>
      r == Failure(EntityRefOf(parse(input.yamlContent.value).entity).error)
  {
    if !Truthy(input.yamlContent) then
      Success(Extraction(if Truthy(input.entityRef) then input.entityRef.value else "", [], "", ""))
    else
      match parse(input.yamlContent.value)
      case ParseError(message) => Failure(message)
      case ParsedFalsy => Success(Extraction("", [], "", ""))
      case ParsedEntity(e) =>
        match EntityRefOf(e)
        case Failure(message) => Failure(message)
        case Success(ref) => Success(Extraction(ref, TagsOf(e), DescriptionOf(e), OwnerOf(e)))
  }

  /** Position of a check's message in the order the checks run. */
  function CheckRank(message: string): nat {
    if message == MissingDescription then 0
    else if message == MissingOwner then 1
    else if message == MissingTags then 2
    else 3
  }

  /** The three presence checks: each message appears exactly when its field is
      empty (an empty tag list counts as missing), in the order the checks run. */
  function MissingFieldErrors(x: Extraction): (errors: seq<string>)
    ensures MissingDescription in errors <==> x.description == ""
    ensures MissingOwner in errors <==> x.owner == ""
    ensures MissingTags in errors <==> x.tags == []
    ensures forall m :: m in errors ==> CheckRank(m) < 3
    ensures forall a, b :: 0 <= a < b < |errors| ==> CheckRank(errors[a]) < CheckRank(errors[b])
  {
    (if x.description == "" then [MissingDescription] else []) +
    (if x.owner == "" then [MissingOwner] else []) +
    (if x.tags == [] then [MissingTags] else [])
  }

  /** The result `validateTemplate` builds before the webhook step: `passed`
      holds exactly when no error was recorded, a thrown error is the only
      entry and leaves the fields at their empty defaults. */
  function Verdict(input: ValidationInput, parse: string -> YamlParse): (r: ValidationResult)
    ensures r.passed <==> r.errors == []
    ensures r.webhookStatus == NotSent
    ensures |r.errors| <= 3
    ensures Extract(input, parse).Failure? ==>
      r.errors == [FetchFailedPrefix + Extract(input, parse).error] &&
      r.entityRef == "" && r.tags == [] && r.description == "" && r.owner == ""
  {
    match Extract(input, parse)
    case Failure(message) =>
      ValidationResult("", false, [FetchFailedPrefix + message], [], "", "", NotSent)
    case Success(x) =>
      var errors := MissingFieldErrors(x);
      ValidationResult(x.entityRef, errors == [], errors, x.tags, x.description, x.owner, NotSent)
  }

  /** The `try` block throws exactly when a non-empty document fails to parse,
      or parses to an entity without `kind` or without `metadata`. */
  lemma ThrowsExactly(input: ValidationInput, parse: string -> YamlParse)
    ensures Extract(input, parse).Failure? <==>
      Truthy(input.yamlContent) &&
      (parse(input.yamlContent.value).ParseError? ||
       (parse(input.yamlContent.value).ParsedEntity? &&
        (parse(input.yamlContent.value).entity.kind.None? ||
         parse(input.yamlContent.value).entity.metadata.None?)))
  {
  }

  /** Outside the error path the errors are the presence checks on the
      result's own fields, in order. */
  lemma ErrorsFollowFields(input: ValidationInput, parse: string -> YamlParse)
    requires Extract(input, parse).Success?
    ensures var r := Verdict(input, parse);
      r.errors == MissingFieldErrors(Extraction(r.entityRef, r.tags, r.description, r.owner)) &&
      (MissingDescription in r.errors <==> r.description == "") &&
      (MissingOwner in r.errors <==> r.owner == "") &&
      (MissingTags in r.errors <==> r.tags == [])
  {
  }

  /** A document that parses to an entity with `kind` and `metadata` gives
      the reference `lower(kind):namespace-or-default/name` and its fields. */
  lemma YamlEntityIsExtracted(input: ValidationInput, parse: string -> YamlParse, e: Entity)
    requires Truthy(input.yamlContent) && parse(input.yamlContent.value) == ParsedEntity(e)
    requires e.kind.Some? && e.metadata.Some?
    ensures var r := Verdict(input, parse);
      r.entityRef == Lower(e.kind.value) + ":" + NamespaceText(e.metadata.value.namespace) + "/" + NameText(e.metadata.value.name) &&
      r.tags == TagsOf(e) && r.description == DescriptionOf(e) && r.owner == OwnerOf(e)
  {
  }

  /** Without a document, a supplied reference is copied verbatim, nothing is
      extracted, and all three checks fail. */
  lemma ReferenceOnlyFailsAllChecks(input: ValidationInput, parse: string -> YamlParse)
    requires !Truthy(input.yamlContent) && Truthy(input.entityRef)
    ensures Verdict(input, parse) ==
      ValidationResult(input.entityRef.value, false, [MissingDescription, MissingOwner, MissingTags], [], "", "", NotSent)
  {
  }

  /** A document that parses to a falsy value leaves the reference empty,
      even when one was supplied, and fails all three checks. */
  lemma FalsyDocumentIgnoresReference(input: ValidationInput, parse: string -> YamlParse)
    requires Truthy(input.yamlContent) && parse(input.yamlContent.value) == ParsedFalsy
    ensures Verdict(input, parse) ==
      ValidationResult("", false, [MissingDescription, MissingOwner, MissingTags], [], "", "", NotSent)
  {
  }

  /** A request with neither field fails all three checks with an empty reference. */
  lemma EmptyRequestFailsAllChecks(parse: string -> YamlParse)
    ensures Verdict(ValidationInput(None, None), parse) ==
      ValidationResult("", false, [MissingDescription, MissingOwner, MissingTags], [], "", "", NotSent)
  {
  }

  /** A component document with all three fields passes with reference `component:default/foo`. */
  lemma CompleteComponentPasses(input: ValidationInput, parse: string -> YamlParse)
    requires Truthy(input.yamlContent)
    requires parse(input.yamlContent.value) ==
      ParsedEntity(Entity(Some("Component"),
                          Some(Metadata(Some("foo"), None, Some("d"), Some(["a"]))),
                          Some(EntitySpec(Some("bob")))))
    ensures Verdict(input, parse) ==
      ValidationResult("component:default/foo", true, [], ["a"], "d", "bob", NotSent)
  {
    LowerComponent();
    var e := parse(input.yamlContent.value).entity;
    assert "component" + ":" + "default" + "/" + "foo" == "component:default/foo";
    assert EntityRefOf(e) == Success("component:default/foo");
    var x := Extraction("component:default/foo", ["a"], "d", "bob");
    assert Extract(input, parse) == Success(x);
    assert MissingFieldErrors(x) == [];
  }

  lemma LowerComponent()
    ensures Lower("Component") == "component"
  {
  }

  /** The first half of `validateTemplate`: the `try` block, the presence
      checks and the `catch` block, building the result with `webhookStatus`
      still `'not_sent'`. */
  method EvaluateTemplate(input: ValidationInput, parse: string -> YamlParse) returns (result: ValidationResult)
    ensures result == Verdict(input, parse)
  {
    var entityRef := "";
    var tags: seq<string> := [];
    var description := "";
    var owner := "";
    var errors: seq<string> := [];
    var passed := false;

    // The try block: `thrown` is the message of the error it raised, if any.
    var thrown: Option<string> := None;
    var entity: Option<Entity> := None;
    if Truthy(input.yamlContent) {
      match parse(input.yamlContent.value)
      case ParseError(message) =>
        thrown := Some(message);
      case ParsedFalsy =>
      case ParsedEntity(e) =>
        entity := Some(e);
    } else if Truthy(input.entityRef) {
      entityRef := input.entityRef.value;
    }
    if thrown.None? && entity.Some? {
      match EntityRefOf(entity.value)
      case Failure(message) =>
        thrown := Some(message);
      case Success(ref) =>
        entityRef := ref;
        tags := TagsOf(entity.value);
        description := DescriptionOf(entity.value);
        owner := OwnerOf(entity.value);
    }
    ghost var extracted := Extract(input, parse);
    assert thrown.Some? ==> extracted == Failure(thrown.value) && entityRef == "" && tags == [] && description == "" && owner == "";
    assert thrown.None? ==> extracted == Success(Extraction(entityRef, tags, description, owner));
    if thrown.None? {
      if description == "" {
        errors := errors + [MissingDescription];
      }
      if owner == "" {
        errors := errors + [MissingOwner];
      }
      if |tags| == 0 {
        errors := errors + [MissingTags];
      }
      passed := |errors| == 0;
      assert errors == MissingFieldErrors(extracted.value);
    } else {
      // The catch block.
      errors := errors + [FetchFailedPrefix + thrown.value];
      passed := false;
    }
    result := ValidationResult(entityRef, passed, errors, tags, description, owner, NotSent);
  }

  /** Every stored result keeps `passed` in step with `errors` and carries a webhook outcome. */
  predicate Settled(r: ValidationResult) {
    (r.passed <==> r.errors == []) && r.webhookStatus != NotSent
  }

  /** The object `createTemplateValidationService` returns, with its
      `validationResults` list. The ghost `broadcastLog` lists the results
      handed to the broadcast sink, and the ghost `webhookLog` the results
      handed to the webhook: they record outside effects, not state. */
  class TemplateValidationService {
    var validationResults: seq<ValidationResult>
    const broadcastConfigured: bool
    ghost var broadcastLog: seq<ValidationResult>
    ghost var webhookLog: seq<ValidationResult>

    ghost predicate Valid()
      reads this
    {
      forall k :: 0 <= k < |validationResults| ==> Settled(validationResults[k])
    }

    /** `createTemplateValidationService({ logger, broadcastValidation })`. */
    constructor (broadcastValidation: bool)
      ensures Valid()
      ensures validationResults == [] && broadcastLog == [] && webhookLog == []
      ensures broadcastConfigured == broadcastValidation
    {
      validationResults := [];
      broadcastConfigured := broadcastValidation;
      broadcastLog := [];
      webhookLog := [];
    }

    /** `validateTemplate`: appends exactly one result, which is the one
        returned; the webhook receives it before its status is known; the sink,
        when configured, receives it once with its final status. */
    method ValidateTemplate(input: ValidationInput, parse: string -> YamlParse, webhook: WebhookOutcome)
      returns (result: ValidationResult)
      requires Valid()
      modifies this
      ensures Valid()
      ensures result == Verdict(input, parse).(webhookStatus := WebhookStatusOf(webhook))
      ensures validationResults == old(validationResults) + [result]
      ensures webhookLog == old(webhookLog) + [Verdict(input, parse)]
      ensures broadcastLog == if broadcastConfigured then old(broadcastLog) + [result] else old(broadcastLog)
    {
      result := EvaluateTemplate(input, parse);
      validationResults := validationResults + [result];

      webhookLog := webhookLog + [result];
      result := result.(webhookStatus := WebhookStatusOf(webhook));
      assert Settled(result);
      // The stored entry is the same object as `result`.
      validationResults := validationResults[|validationResults| - 1 := result];
      assert validationResults == old(validationResults) + [result];

      if broadcastConfigured {
        broadcastLog := broadcastLog + [result];
      }
    }

    /** `getValidations`: the whole list, in call order. */
    method GetValidations() returns (results: seq<ValidationResult>)
      requires Valid()
      ensures results == validationResults
      ensures forall k :: 0 <= k < |results| ==> Settled(results[k])
    {
      results := validationResults;
    }
  }

  /** Two calls on a fresh service: the list holds both results, in call order. */
  method CallOrder(first: ValidationInput, second: ValidationInput, parse: string -> YamlParse,
                   firstWebhook: WebhookOutcome, secondWebhook: WebhookOutcome)
    returns (history: seq<ValidationResult>)
    ensures history == [Verdict(first, parse).(webhookStatus := WebhookStatusOf(firstWebhook)),
                        Verdict(second, parse).(webhookStatus := WebhookStatusOf(secondWebhook))]
  {
    var service := new TemplateValidationService(true);
    var r1 := service.ValidateTemplate(first, parse, firstWebhook);
    var r2 := service.ValidateTemplate(second, parse, secondWebhook);
    history := service.GetValidations();
  }
}
