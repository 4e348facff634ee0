# Template validator service and GitHub README check, in Dafny

This project models the core of the template validator backend plugin:

- The template validation service (`createTemplateValidationService.ts`).
  `validateTemplate` takes a request with an optional `yamlContent` and an
  optional `entityRef`. It extracts description, owner and tags and runs
  three presence checks. It turns any thrown error into one error entry and
  appends the result to an in-memory list. Afterwards it records the webhook
  outcome on the stored result and hands the result to an optional broadcast
  sink. `getValidations` returns the list.
- The GitHub helpers (`githubCheck.ts`). `extractGitHubRepoInfo` matches the
  regular expression `github.com\/(.+?)\/(.+?)(\/|$)`. `checkReadmeInGithub`
  builds a contents-API request from the match and reports whether the
  response was ok.

Files:

- `wrappers.dfy`: `Option` and `Result`.
- `types.dfy`: the records of `types.ts` and JavaScript truthiness of an
  optional string.
- `validation_service.dfy`: the service. `TemplateValidationService` is a
  class whose `validationResults` field is the list. `ValidateTemplate` and
  `GetValidations` are its methods. `yaml.parse` is a function parameter. The
  webhook's outcome is a parameter. The sink's calls are recorded in the
  ghost field `broadcastLog`, and the webhook's payloads in the ghost field
  `webhookLog`. `Verdict` is the
  reference definition of the result, stated case by case over the input.
  `EvaluateTemplate` computes the same result step by step, as the source
  does, and is proved equal to it.
- `github_check.dfy`: the extractor and the README check. `IsMatch` and
  `IsFirstMatch` state what the regular expression matches and which match
  JavaScript reports. The reported match is the least in backtracking order:
  leftmost start, then shortest owner, then shortest repo. `MatchFrom`,
  `TryOwner` and `TryRepo` search for the match in that order and are proved
  to return exactly that one.

Three behaviours of the code worth noting:

- The code tests `yamlContent` and `entityRef` for truthiness. An empty
  `yamlContent` therefore falls through to the `entityRef` path.
- A non-empty `yamlContent` that parses to a falsy value leaves `entityRef`
  as `""`, even when a reference was supplied.
- The regular expression has no `u` flag, so JavaScript matches it against
  UTF-16 code units. The unescaped `.` in `github.com` takes one code unit,
  so a character outside the Basic Multilingual Plane cannot stand for it.

## Model

| member | source | states |
|---|---|---|
| `TemplateValidation.WebhookStatusOf` | plugins/template-validator-backend/src/services/TemplateValidationService/createTemplateValidationService.ts:70-75 | The stored status is never `not_sent`. It is `sent` exactly when the webhook resolved to `'sent'`. A thrown error counts as `failed`. |
| `TemplateValidation.Lower` | plugins/template-validator-backend/src/services/TemplateValidationService/createTemplateValidationService.ts:39 | `toLowerCase` keeps the length, leaves no upper-case ASCII letter, maps each upper-case letter to its lower-case one, and leaves every other character alone. |
| `TemplateValidation.NamespaceText` | plugins/template-validator-backend/src/services/TemplateValidationService/createTemplateValidationService.ts:39 | `metadata.namespace \|\| 'default'` is the namespace when it is present and non-empty, and `default` otherwise, so it is never empty. |
| `TemplateValidation.NameText` | plugins/template-validator-backend/src/services/TemplateValidationService/createTemplateValidationService.ts:39 | An interpolated absent name prints as `undefined`, giving for example `component:default/undefined`. A present name prints as itself. |
| `TemplateValidation.EntityRefOf` | plugins/template-validator-backend/src/services/TemplateValidationService/createTemplateValidationService.ts:39 | The reference template throws exactly when `kind` or `metadata` is absent. The message is the one for `toLowerCase` when `kind` is missing, and the one for `namespace` otherwise. |
| `TemplateValidation.TagsOf` | plugins/template-validator-backend/src/services/TemplateValidationService/createTemplateValidationService.ts:40 | `tags` is the entity's tag list when it has one, and `[]` otherwise. |
| `TemplateValidation.DescriptionOf` | plugins/template-validator-backend/src/services/TemplateValidationService/createTemplateValidationService.ts:41 | `description` is the entity's description when that is present and non-empty, and `''` otherwise. |
| `TemplateValidation.OwnerOf` | plugins/template-validator-backend/src/services/TemplateValidationService/createTemplateValidationService.ts:42 | `owner` is `spec.owner` when that is present and non-empty, and `''` otherwise. |
| `TemplateValidation.Extract` | plugins/template-validator-backend/src/services/TemplateValidationService/createTemplateValidationService.ts:28-43 | Only a non-empty document can make the `try` block throw. Without one, a supplied reference is copied, an absent one leaves `""`, and tags, description and owner stay empty. With one, an empty reference means the document parsed to a falsy value. A parse error is thrown with `yaml.parse`'s own message, and a failing reference template with its `TypeError` message, which the `catch` block then records after the prefix. `ThrowsExactly` gives the exact throw condition. |
| `TemplateValidation.MissingFieldErrors` | plugins/template-validator-backend/src/services/TemplateValidationService/createTemplateValidationService.ts:46-48 | Each of the three messages is present exactly when its field is empty. An empty tag list counts as missing. No other message appears, and the messages come in check order. |
| `TemplateValidation.Verdict` | plugins/template-validator-backend/src/services/TemplateValidationService/createTemplateValidationService.ts:20-65 | `passed` holds exactly when `errors` is empty. `webhookStatus` is still `not_sent`. There are at most three errors. When the `try` block throws, the only error is the prefixed message, and the reference, tags, description and owner keep their empty defaults. |
| `TemplateValidation.ThrowsExactly` | plugins/template-validator-backend/src/services/TemplateValidationService/createTemplateValidationService.ts:28-55 | The `try` block throws exactly when a non-empty document fails to parse, or parses to an entity that lacks `kind` or `metadata`. |
| `TemplateValidation.ErrorsFollowFields` | plugins/template-validator-backend/src/services/TemplateValidationService/createTemplateValidationService.ts:46-51 | Outside the error path, the errors are the three presence checks applied to the result's own fields, in order. Each message is present exactly when its field is empty. |
| `TemplateValidation.YamlEntityIsExtracted` | plugins/template-validator-backend/src/services/TemplateValidationService/createTemplateValidationService.ts:30-42 | A document that parses to an entity with `kind` and `metadata` gives `lower(kind) + ":" + (namespace or "default") + "/" + name`. Tags, description and owner are taken from the entity, with empty defaults. |
| `TemplateValidation.ReferenceOnlyFailsAllChecks` | plugins/template-validator-backend/src/services/TemplateValidationService/createTemplateValidationService.ts:32-51 | With no document, a supplied reference is copied verbatim. The other fields stay empty, and the result fails all three checks in order. |
| `TemplateValidation.FalsyDocumentIgnoresReference` | plugins/template-validator-backend/src/services/TemplateValidationService/createTemplateValidationService.ts:30-51 | A document that parses to a falsy value leaves the reference `""`, whatever `entityRef` was supplied. The result fails all three checks. |
| `TemplateValidation.EmptyRequestFailsAllChecks` | plugins/template-validator-backend/src/services/TemplateValidationService/createTemplateValidationService.ts:21-51 | A request with neither field yields an empty reference, the three messages and `passed` false. |
| `TemplateValidation.CompleteComponentPasses` | plugins/template-validator-backend/src/services/TemplateValidationService/createTemplateValidationService.ts:38-51 | A `Component` named `foo` with tags, description and owner passes with reference `component:default/foo` and no errors. |
| `TemplateValidation.EvaluateTemplate` | plugins/template-validator-backend/src/services/TemplateValidationService/createTemplateValidationService.ts:20-65 | The step-by-step `try`/`catch` and checks build exactly the reference result `Verdict`. |
| `TemplateValidation.TemplateValidationService.constructor` | plugins/template-validator-backend/src/services/TemplateValidationService/createTemplateValidationService.ts:16 | The service starts with an empty list. No webhook or sink call has happened yet, and the sink is configured as given. |
| `TemplateValidation.TemplateValidationService.ValidateTemplate` | plugins/template-validator-backend/src/services/TemplateValidationService/createTemplateValidationService.ts:19-83 | It appends exactly one result, which is the one returned, and leaves earlier entries unchanged. The returned result is the verdict with the webhook's status. The webhook receives the verdict while its status is still `not_sent`. The sink, when configured, is called once with the final result. The invariant "passed iff no errors, status never `not_sent`" holds for every stored entry. |
| `TemplateValidation.TemplateValidationService.GetValidations` | plugins/template-validator-backend/src/services/TemplateValidationService/createTemplateValidationService.ts:84-86 | It returns the whole list. Every entry has `passed` exactly when it has no errors, and a status of `sent` or `failed`. |
| `TemplateValidation.CallOrder` | plugins/template-validator-backend/src/services/TemplateValidationService/createTemplateValidationService.ts:67-86 | After two calls on a new service, `getValidations` returns both results in call order. |
| `GithubCheck.MatchSpellsPattern` | plugins/template-validator-backend/src/services/TemplateValidationService/githubCheck.ts:3 | `IsMatch` is the meaning of the pattern. A match spells `github`, one character that is not a line terminator, `com/`, the owner, a slash and the repo. A slash or the end of the URL follows it. Neither group holds a line terminator. |
| `GithubCheck.FirstMatchIsUnique` | plugins/template-validator-backend/src/services/TemplateValidationService/githubCheck.ts:3 | `IsFirstMatch` is the match JavaScript reports: one that precedes every other match in backtracking order. At most one match has that property. |
| `GithubCheck.GroupsOf` | plugins/template-validator-backend/src/services/TemplateValidationService/githubCheck.ts:5 | The two capture groups are non-empty, have the lengths of the match, hold no line terminator, and with a slash between them form the text the match consumed after `github.com/`. |
| `GithubCheck.TryRepo` | plugins/template-validator-backend/src/services/TemplateValidationService/githubCheck.ts:3 | The lazy repo group tries lengths in increasing order. It returns the shortest length that matches, or none when no length does. |
| `GithubCheck.TryOwner` | plugins/template-validator-backend/src/services/TemplateValidationService/githubCheck.ts:3 | The lazy owner group tries lengths in increasing order and backtracks when the repo group fails. It returns the shortest owner that has a repo, with that repo's shortest length, or none. |
| `GithubCheck.MatchFrom` | plugins/template-validator-backend/src/services/TemplateValidationService/githubCheck.ts:3 | Scanning start positions left to right returns a match that precedes every other match from that position on. It returns none exactly when no match starts there or later. |
| `GithubCheck.ExtractGitHubRepoInfo` | plugins/template-validator-backend/src/services/TemplateValidationService/githubCheck.ts:1-8 | It returns null exactly when the pattern matches nowhere. Otherwise it returns the groups of the first match in backtracking order, and both groups are non-empty. |
| `GithubCheck.ExtractFromFirstMatch` | plugins/template-validator-backend/src/services/TemplateValidationService/githubCheck.ts:3-5 | Conversely, any first match in backtracking order determines the extracted owner and repo. |
| `GithubCheck.ShorterOwnerCompletes` | plugins/template-validator-backend/src/services/TemplateValidationService/githubCheck.ts:3 | If a match's owner has a slash after its first character, the pattern also matches with the owner ending at that slash. |
| `GithubCheck.FirstOwnerHasNoInnerSlash` | plugins/template-validator-backend/src/services/TemplateValidationService/githubCheck.ts:3 | In the first match, no slash follows the owner's first character. |
| `GithubCheck.FirstRepoHasNoInnerSlash` | plugins/template-validator-backend/src/services/TemplateValidationService/githubCheck.ts:3 | In the first match, no slash follows the repo's first character. |
| `GithubCheck.FirstMatchGroupsStop` | plugins/template-validator-backend/src/services/TemplateValidationService/githubCheck.ts:3 | In the first match, neither group holds a slash after its first character. |
| `GithubCheck.GroupsStopAtFirstSlash` | plugins/template-validator-backend/src/services/TemplateValidationService/githubCheck.ts:3-5 | The extracted owner ends at the first slash reachable after one character. The repo ends at the next slash or at the end of the URL. |
| `GithubCheck.DocCommentExample` | plugins/template-validator-backend/src/services/TemplateValidationService/githubCheck.ts:2-5 | `url:https://github.com/backstage/backstage/tree/master/` yields owner `backstage` and repo `backstage`. |
| `GithubCheck.UnescapedDotMatchesAnyCharacter` | plugins/template-validator-backend/src/services/TemplateValidationService/githubCheck.ts:3 | Because the `.` is unescaped, `githubXcom/a/b` yields owner `a` and repo `b`. |
| `GithubCheck.AstralCharacterIsTwoCodeUnits` | plugins/template-validator-backend/src/services/TemplateValidationService/githubCheck.ts:3-7 | `github` followed by U+1F600 and `com/a/b` yields null. The `.` takes only the first of the character's two code units, and no other position starts `github`. |
| `GithubCheck.OwnerMayStartWithSlash` | plugins/template-validator-backend/src/services/TemplateValidationService/githubCheck.ts:3-5 | `github.com//x/y` yields owner `/x` and repo `y`, because the lazy owner takes one character, a slash included, before it looks for the closing slash. |
| `GithubCheck.RepoMayNotBeEmpty` | plugins/template-validator-backend/src/services/TemplateValidationService/githubCheck.ts:3-7 | `github.com/owner/` yields null, because the repo group needs at least one character. |
| `GithubCheck.ReadmeApiUrl` | plugins/template-validator-backend/src/services/TemplateValidationService/githubCheck.ts:15 | The URL is `https://api.github.com/repos/`, then owner, a slash and repo, then `/contents/README.md`. |
| `GithubCheck.ReadmeApiUrlInjective` | plugins/template-validator-backend/src/services/TemplateValidationService/githubCheck.ts:15 | For owners with no slash after their first character, which is what the extractor returns, the URL determines both the owner and the repo. |
| `GithubCheck.DistinctReposDistinctReadmeUrls` | plugins/template-validator-backend/src/services/TemplateValidationService/githubCheck.ts:11-15 | Two URLs from which the extractor reads different repositories lead to different README request URLs. |
| `GithubCheck.CheckReadmeInGithub` | plugins/template-validator-backend/src/services/TemplateValidationService/githubCheck.ts:10-28 | No request is made exactly when extraction returns null. The request URL is `https://api.github.com/repos/<owner>/<repo>/contents/README.md`. The only header is `Authorization: Bearer <token>`, present exactly when a non-empty token is given. The result is true exactly when a request was made and `fetch` answered with an ok response. |

## Left out

- `yaml.parse` is a foreign library. It is a parameter that yields an entity, a falsy value or an error message.
- JavaScript values that are not strings or arrays are not modelled. A numeric `kind` throws a different `TypeError`. A `null` name prints as `null`. A string `tags` has a length. A non-zero numeric `description` is truthy and is stored as a number, while `0` counts as missing. Description and owner are modelled as optional strings, and tags as an optional sequence.
- The `TypeError` messages for a missing `kind` or `metadata` use V8's wording. Other engines word them differently.
- Lower: covers `toLowerCase` on ASCII letters only. Unicode case mapping is not modelled.
- The webhook POST (`webhookSender.ts`) is network I/O. Its outcome is a parameter: `'sent'`, `'failed'` or a thrown error.
- A JavaScript string can hold an unpaired surrogate, such as `"github\uD800com/a/b"`, where the `.` matches the lone surrogate. A Dafny `string` cannot represent such an input, so the extractor is modelled only on strings of Unicode scalar values. On those it is exact.
- The `fetch` in `githubCheck.ts` is network I/O. It is a function parameter that yields a response with an `ok` flag or a thrown error.
- The WebSocket server and its broadcast to open clients (`template-validator-backend/src/plugin.ts`) are transport code. The sink is modelled only as the record of its calls.
- Concurrent calls are not modelled. In the source, another request can run while `validateTemplate` awaits the webhook. During that time a concurrent `getValidations` can see the new entry with status `not_sent`. The model's invariant holds between calls of a sequential run.
- `getValidations` returns the live array, and `validateTemplate` returns the stored object. Later changes made through those references are not modelled. The one such change the service makes is modelled by replacing the last stored entry: setting the webhook status after the push.
- Resolving an entity from the catalog by reference is commented out in the source. The model copies the reference, as the code does.
- The Express router and its zod check (`router.ts`), the catalog event watcher, the dashboard UI, the logger calls and `root-logger.ts` are not part of this model.
