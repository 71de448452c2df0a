# jsonapi-authorization, modelled in Dafny

jsonapi-authorization puts Pundit authorization into every operation that a
jsonapi-resources server runs. A processor subclass attaches before-callbacks
to each operation. Each callback works out which records the request
touches: its own record, the records in its relationship data, and the
records named by `?include=`. It then calls an authorizer object. The
default authorizer turns each call into one or more
`Pundit.authorize(user, subject, query)` checks, and the first refusal stops
the request. Two resource mixins narrow listings to the user's policy scope,
and a configuration object chooses the authorizer class and how the user is
read from the request context.

The model covers:

- `Outcomes`: what one authorization produces. It is the sequence of
  checks made (the trace) plus a verdict: allowed, denied by a check, or an
  exception raised. `Then` is Ruby's statement sequencing, where an
  exception stops everything after it. `FailsFast` is the discipline every
  operation keeps: each check before the deciding one was granted, and a
  denial is the last check made.
- `Pundit`: the policy layer as an oracle. It says which permission
  methods a policy defines, what each one answers for a user, and which
  records a scope keeps. `Gate` is `Pundit.authorize` bound to one user.
- `DefaultPunditAuthorizer`: every public method of the keyword-argument
  authorizer, the relationship-operation rule, and its `update?` fallback.
- `IncludeWalk`: the `?include=` walk that both processors share.
- `AuthorizingProcessor`: the current processor. It has the fourteen
  before-callbacks, the after-callback for includes, `related_models_with_context`
  and the memoized authorizer.
- `AuthorizingOperationsProcessor`: the processor for the older operations
  pipeline. It calls the positional authorizer, whose answers stay abstract.
- `Authorizer`: the older positional authorizer.
- `PunditOperationsProcessor`: the earliest processor, which checks the
  controller action.
- `PunditScopedResource` and `ResourcePolicyAuthorization`: the two
  resource mixins.
- `Configuration`: the configuration object, as a class with its two
  settings, and the module-level singleton behind `configure`.

Loops in the source are modelled as methods with `while` loops, proved equal
to the functions that specify them. Objects whose fields change are modelled
as classes: the configuration, the singleton holder, and the processors'
memoized authorizer.

Where the code differs from the library's documented intent, the model
follows the code:

- When a policy lacks the relationship-specific method, the fallback checks
  `update?` on the source and then `update?` on every related record. It
  does not stop at the source.
- Permission names never carry the type of a polymorphic relationship.
  `replace_<relationship>?` is asked whatever the request's `type` says.
- In `replace_fields`, an empty to-many entry still reaches the relationship
  rule. It calls `replace_<relationship>?` with `[]`.
- The include walk follows the raw association of each record. No policy
  scope is applied on the way down.
- For each relationship in a create request, `create_resource`'s fallback
  checks `update?` on every related record. It does not check `create?`.
- In the older processor, `replace_to_many_relationship` passes the
  relationship's current records (`records_for`), not the new ones.

## Model

| member | source | states |
|---|---|---|
| Outcomes.ThenFailsFast | lib/jsonapi/authorization/default_pundit_authorizer.rb:55-58 | Running two fail-fast authorizations one after the other is fail-fast: every check before the deciding one was granted, and a denial is the last check made |
| Outcomes.FlatMapConcat | lib/jsonapi/authorization/pundit_operations_processor.rb:71-76 | `flat_map` over two lists in a row equals `flat_map` over their concatenation: the results join in order, and the first raise wins |
| Pundit.ActionQuery | lib/jsonapi/authorization/resource_policy_authorization.rb:49 | The action query ends in `?`; it is the context's `action` followed by `?`, or just `?` when the action is nil |
| Pundit.AuthorizeEachDecides | lib/jsonapi/authorization/authorizer.rb:35-37 | Checking a list of records in order is allowed exactly when every record passes, after checking them all; otherwise it is denied by the first refused record, after checking exactly the records up to it; it never raises |
| Pundit.AuthorizeEachInOrder | lib/jsonapi/authorization/default_pundit_authorizer.rb:124-126 | The `each` loop over the records gives the same outcome as the specification `AuthorizeEach` |
| Pundit.PolicyScopeOnlyDrops | lib/jsonapi/authorization/pundit_scoped_resource.rb:21-22 | The policy scope only drops records: no record occurs in it more often than in the input |
| DefaultPunditAuthorizer.PermissionName | lib/jsonapi/authorization/default_pundit_authorizer.rb:150 | The relationship permission name starts with the operation's prefix, continues with exactly the relationship name and ends in `?` |
| DefaultPunditAuthorizer.SingleCheckOperations | lib/jsonapi/authorization/default_pundit_authorizer.rb:31-42 | find is one `index?` check on the class; show is one `show?` on the record; remove_resource is one `destroy?`; the include checks are find on the record class and show on the related record |
| DefaultPunditAuthorizer.IncludeIgnoresSource | lib/jsonapi/authorization/default_pundit_authorizer.rb:245-264 | The two include checks ignore the source record they receive |
| DefaultPunditAuthorizer.ShowWithRelatedOrder | lib/jsonapi/authorization/default_pundit_authorizer.rb:55-72 | show_relationship and show_related_resource check `show?` on the source first. The related record is checked only when it is present and the source passed. A nil related record leaves the source check alone |
| DefaultPunditAuthorizer.ShowRelatedResourcesOrder | lib/jsonapi/authorization/default_pundit_authorizer.rb:82-85 | show_related_resources checks `show?` on the source, then `index?` on the related class; a refused source means the class is never checked |
| DefaultPunditAuthorizer.SpecificNamesAreNotGeneric | lib/jsonapi/authorization/default_pundit_authorizer.rb:150-223 | No relationship-specific permission name equals one of the generic `index?`, `show?`, `create?`, `update?` or `destroy?` |
| DefaultPunditAuthorizer.SpecificMethodDecidesAlone | lib/jsonapi/authorization/default_pundit_authorizer.rb:274-282 | When the policy defines the relationship method, that method decides alone. It makes one check, on the source with the related value as its argument, and `update?` is never asked |
| DefaultPunditAuthorizer.FallbackChecksSourceThenRelated | lib/jsonapi/authorization/default_pundit_authorizer.rb:283-289 | Without the specific method, `update?` is checked on the source and then on every related record in order. A nil or empty related value leaves only the source check |
| DefaultPunditAuthorizer.SpecificMethodIsExclusive | lib/jsonapi/authorization/default_pundit_authorizer.rb:274-282 | With the specific method defined, two policies that agree on it give the same outcome whatever else they answer; when they disagree on it, the verdict flips |
| DefaultPunditAuthorizer.FallbackFollowsUpdate | lib/jsonapi/authorization/default_pundit_authorizer.rb:283-289 | Without the specific method, only the `update?` answers decide the outcome |
| DefaultPunditAuthorizer.AuthorizeEachFollowsUpdate | lib/jsonapi/authorization/default_pundit_authorizer.rb:286-288 | Two users whose `update?` answers agree on the records get the same outcome from the record loop |
| DefaultPunditAuthorizer.AuthorizeRelationshipOperationFailsFast | lib/jsonapi/authorization/default_pundit_authorizer.rb:269-291 | The relationship-operation rule keeps the fail-fast discipline and never raises |
| DefaultPunditAuthorizer.AuthorizeRelationshipOperationInOrder | lib/jsonapi/authorization/default_pundit_authorizer.rb:269-291 | The rule, with its `Array(...).each` loop, equals its specification function |
| DefaultPunditAuthorizer.AuthorizeRelatedRecordFollowsTable | lib/jsonapi/authorization/default_pundit_authorizer.rb:293-320 | Each bundle entry of replace_fields goes through the relationship rule under `remove_<rel>?` when it is a to-one entry with nil records, and under `replace_<rel>?` otherwise, with the entry's records as the argument |
| DefaultPunditAuthorizer.AuthorizeRelatedRecordsFailsFast | lib/jsonapi/authorization/default_pundit_authorizer.rb:293-320 | The bundle loop keeps the fail-fast discipline and never raises |
| DefaultPunditAuthorizer.ReplaceFieldsSourceFirst | lib/jsonapi/authorization/default_pundit_authorizer.rb:94-100 | replace_fields checks `update?` on the source before anything in the bundle. A refusal there stops everything, and an empty bundle leaves only that check |
| DefaultPunditAuthorizer.ReplaceFieldsInOrder | lib/jsonapi/authorization/default_pundit_authorizer.rb:94-100 | The replace_fields loop over the bundle equals its specification function |
| DefaultPunditAuthorizer.EmptyToManyEntry | lib/jsonapi/authorization/default_pundit_authorizer.rb:296-306 | An empty to-many entry still calls `replace_<rel>?` with `[]` when it is defined; otherwise `update?` is asked on the source a second time |
| DefaultPunditAuthorizer.CreateWithFailsFast | lib/jsonapi/authorization/default_pundit_authorizer.rb:111-128 | The create_resource bundle loop keeps the fail-fast discipline and never raises |
| DefaultPunditAuthorizer.CreateWithEntryRule | lib/jsonapi/authorization/default_pundit_authorizer.rb:111-128 | A defined `create_with_<rel>?` on the class decides an entry alone, with the records as its argument; otherwise `update?` is checked on each element of `Array(records)`, so a nil entry checks nothing |
| DefaultPunditAuthorizer.CreateResourceClassFirst | lib/jsonapi/authorization/default_pundit_authorizer.rb:109-110 | create_resource checks `create?` on the class first; a refusal there stops everything, even with an empty bundle |
| DefaultPunditAuthorizer.CreateResourceInOrder | lib/jsonapi/authorization/default_pundit_authorizer.rb:109-129 | The create_resource loops equal their specification function |
| DefaultPunditAuthorizer.CreateWithRefusedRelatedRecord | lib/jsonapi/authorization/default_pundit_authorizer.rb:109-129 | Creating with two new related records, where `create?` is granted, no `create_with_<rel>?` is defined and the second record's `update?` is refused, is denied by that check after exactly three checks |
| DefaultPunditAuthorizer.RelationshipOperationsFailFast | lib/jsonapi/authorization/default_pundit_authorizer.rb:149-223 | The five relationship operations keep the fail-fast discipline and raise nothing but refusals |
| DefaultPunditAuthorizer.ResourceOperationsFailFast | lib/jsonapi/authorization/default_pundit_authorizer.rb:31-138 | find, show, the three show-related methods, replace_fields, create_resource and remove_resource keep the fail-fast discipline and raise nothing but refusals |
| IncludeWalk.Associated | lib/jsonapi/authorization/authorizing_processor.rb:365-369 | `Array.wrap` of a to-one association holds exactly its record, and nothing when it is nil; a to-many association is its records |
| IncludeWalk.LeafRules | lib/jsonapi/authorization/authorizing_processor.rb:379-397 | A symbol naming a to-one relationship asks include_has_one with the related record, or nothing when that record is nil; a to-many relationship asks include_has_many with the related model class; any other relationship raises |
| IncludeWalk.ItemRules | lib/jsonapi/authorization/authorizing_processor.rb:357-400 | A symbol is a leaf. A hash walks its first branch and then the rest, and an empty hash passes. Anything else raises `Unknown include directive` before any call |
| IncludeWalk.BranchPreOrder | lib/jsonapi/authorization/authorizing_processor.rb:361-378 | For each hash branch, the relationship itself is authorized first; the deeper directives run only if it passed |
| IncludeWalk.ToOneBranch | lib/jsonapi/authorization/authorizing_processor.rb:361-378 | Under a to-one branch with a related record, the deeper directives are walked from that record |
| IncludeWalk.ToManyBranch | lib/jsonapi/authorization/authorizing_processor.rb:361-378 | Under a to-many branch, the deeper directives are walked from each related record in turn |
| IncludeWalk.ItemFailsFast | lib/jsonapi/authorization/authorizing_processor.rb:357-401 | The walk of any directive, at any depth, keeps the fail-fast discipline |
| IncludeWalk.EachResourceFailsFast | lib/jsonapi/authorization/authorizing_processor.rb:349-355 | Walking the directives for every resource of the result keeps the fail-fast discipline |
| IncludeWalk.IncludeDirectiveRules | lib/jsonapi/authorization/authorizing_processor.rb:36-49 | After an errors result, or without include directives, the walk makes no call; otherwise it is fail-fast |
| IncludeWalk.EachResourceWithoutDirectives | lib/jsonapi/authorization/authorizing_processor.rb:349-355 | Without directives no resource causes a call |
| IncludeWalk.IncludeDirectiveInOrder | lib/jsonapi/authorization/authorizing_processor.rb:36-49 | The loop over the result's resources equals the specification function |
| IncludeWalk.TwoLevelDenial | lib/jsonapi/authorization/authorizing_processor.rb:357-401 | For `{a => [:b]}` with `a` a to-many relationship whose class passes and `b` a to-one include refused on the first associated record, the walk is denied by that `b` call after exactly two calls; the second record is never visited |
| AuthorizingProcessor.Uniq | lib/jsonapi/authorization/authorizing_processor.rb:222 | `uniq` keeps exactly the keys of its input, with no repeats, and is never longer |
| AuthorizingProcessor.UniqCount | lib/jsonapi/authorization/authorizing_processor.rb:222 | `uniq` returns distinct keys unchanged and shortens any list with a repeat |
| AuthorizingProcessor.Processor.Authorizer | lib/jsonapi/authorization/authorizing_processor.rb:281-283 | The first use builds an authorizer for the user the configuration extracts from the context; later uses return the same one |
| AuthorizingProcessor.Processor.Run | lib/jsonapi/authorization/authorizing_processor.rb:5-49 | Running an operation's callbacks gives the lifecycle specification: the before-callback, then the include walk where it is registered |
| AuthorizingProcessor.OwnRecordLookups | lib/jsonapi/authorization/authorizing_processor.rb:294-303 | show makes exactly one `show?` check, on the record `id` names; remove_resource exactly one `destroy?` check, on the record `resource_id` names; each is allowed exactly when that check passes. show_related_resources first checks `show?` on the record `source_id` names |
| AuthorizingProcessor.ShowRelationshipCases | lib/jsonapi/authorization/authorizing_processor.rb:64-85 | `show?` on the parent comes first, and its refusal is the only check. A to-many relationship makes no other check, whatever the parent's related records are. A to-one relationship then checks `show?` on the related record unless it is nil. Any other relationship raises before any check |
| AuthorizingProcessor.NilKeyValueIsRemoval | lib/jsonapi/authorization/authorizing_processor.rb:144-145 | With a nil `key_value`, plain and polymorphic replacement are authorized exactly as removal: one `remove_<rel>?` check on the source without argument when the policy defines it, otherwise one `update?` check on the source |
| AuthorizingProcessor.NullReplaceFollowsRemoveMethod | lib/jsonapi/authorization/authorizing_processor.rb:144-168 | With `remove_<rel>?` defined, replacing with null is decided by that method alone: flipping its answer flips the outcome |
| AuthorizingProcessor.PolymorphicUsesPlainName | lib/jsonapi/authorization/authorizing_processor.rb:246-277 | Two request types that lead to the same new record give the same outcome, and so does the plain replacement when its relationship finds that record. The permission asked is `replace_<rel>?` with the new record, or `update?` on the source when the policy lacks it |
| AuthorizingProcessor.RemoveToManyCountCheck | lib/jsonapi/authorization/authorizing_processor.rb:203-231 | When the records found do not number the distinct keys given, RecordNotFound is raised before any check; otherwise the found records go to the removal rule. A missing relationship fails before any check |
| AuthorizingProcessor.MissingRelationshipRaises | lib/jsonapi/authorization/authorizing_processor.rb:305-311 | When the resource class lacks the relationship, replace_to_one (with a key), create_to_many, replace_to_many and remove_to_many fail with NoMethodError before any check, and show_relationship raises its own error; remove_to_one never raises |
| AuthorizingProcessor.RepeatedKeyCountedOnce | lib/jsonapi/authorization/authorizing_processor.rb:222 | A key given twice is counted once: one record found for `[k, k]` passes the count check |
| AuthorizingProcessor.RelatedModelsRules | lib/jsonapi/authorization/authorizing_processor.rb:319-338 | A nil value gives no records. A type-and-id hash gives the record found through the type's resource class. A single id gives the record found through the relationship's class. An id list gives the records found when they number the distinct ids, and RecordNotFound otherwise. A missing relationship fails with NoMethodError |
| AuthorizingProcessor.EntriesInOrder | lib/jsonapi/authorization/authorizing_processor.rb:318-345 | When every value resolves, one side of the data gives one entry per relationship, in request order. Otherwise it gives the first failure in request order |
| AuthorizingProcessor.RelatedModelsWithContextOrder | lib/jsonapi/authorization/authorizing_processor.rb:313-347 | Every to-one entry comes before every to-many entry, each tagged with its side |
| AuthorizingProcessor.IncludeCallIsGatewayCall | lib/jsonapi/authorization/authorizing_processor.rb:387-394 | Each include call of the walk is the default authorizer's include method |
| AuthorizingProcessor.IncludeDirectiveChecks | lib/jsonapi/authorization/authorizing_processor.rb:36-49 | The include walk, seen as Pundit checks, is fail-fast, and makes no check after an errors result |
| AuthorizingProcessor.LifecycleRules | lib/jsonapi/authorization/authorizing_processor.rb:25-34 | Include authorization runs only after the six registered operations, only when the operation's own authorization passed, and never after an errors result |
| AuthorizingOperationsProcessor.OwnRecordCalls | lib/jsonapi/authorization/authorizing_operations_processor.rb:227-236 | show calls the authorizer on the record `id` names, remove_resource on the record `resource_id` names, and show_related_resources on the record `source_id` names; each makes that one call, whose answer is the verdict |
| AuthorizingOperationsProcessor.BeforeMakesOneCall | lib/jsonapi/authorization/authorizing_operations_processor.rb:46-208 | Every before-callback either raises before calling the authorizer or makes exactly one call, whose answer is the verdict |
| AuthorizingOperationsProcessor.ShowRelationshipCases | lib/jsonapi/authorization/authorizing_operations_processor.rb:59-80 | One call on the parent, whose answer is the verdict. A to-many relationship passes nil, whatever the parent's relationship reader holds; a to-one relationship passes what that reader returns. Any other relationship raises before the call |
| AuthorizingOperationsProcessor.ReplaceToOneArguments | lib/jsonapi/authorization/authorizing_operations_processor.rb:128-149 | replace_to_one passes the source, its current related value and the new record. The new record is nil exactly when `key_value` is nil |
| AuthorizingOperationsProcessor.RelatedModelsOrder | lib/jsonapi/authorization/authorizing_operations_processor.rb:246-263 | No data gives no records. Otherwise the records of every to-one relationship come first, then those of every to-many relationship, and the first failing lookup decides |
| AuthorizingOperationsProcessor.IncludeDirectiveRules | lib/jsonapi/authorization/authorizing_operations_processor.rb:31-44 | The lifted include walk is fail-fast, makes only include calls, and makes none after an errors result |
| AuthorizingOperationsProcessor.LifecycleRules | lib/jsonapi/authorization/authorizing_operations_processor.rb:20-29 | Include authorization follows only the six registered operations, and only when their own call passed and the result is not an error |
| AuthorizingOperationsProcessor.Processor.Authorizer | lib/jsonapi/authorization/authorizing_operations_processor.rb:212-214 | The authorizer is built from the operation's context on first use, then reused |
| AuthorizingOperationsProcessor.Processor.Run | lib/jsonapi/authorization/authorizing_operations_processor.rb:6-44 | Running an operation's callbacks gives the lifecycle specification |
| Authorizer.NewDecidesForContextUser | lib/jsonapi/authorization/authorizer.rb:6-8 | Every check is decided for the context's `user` entry, nil when there is none; contexts that agree on `user` give the same authorizer |
| Authorizer.SingleChecks | lib/jsonapi/authorization/authorizer.rb:10-16 | find, show, show_related_resources and remove_resource each make one check: `index?`, `show?`, `show?` and `destroy?`, allowed exactly when that check passes |
| Authorizer.ShowRelationshipRules | lib/jsonapi/authorization/authorizer.rb:18-26 | A refused source fails whatever the related record is. A nil related record with a permitted source succeeds after one check. Otherwise both must pass `show?` |
| Authorizer.ReplaceFieldsRules | lib/jsonapi/authorization/authorizer.rb:32-38 | Allowed exactly when the source and every related record pass `update?`. With no related records only the source matters. The call is fail-fast |
| Authorizer.ReplaceFieldsInOrder | lib/jsonapi/authorization/authorizer.rb:32-38 | The loop equals the specification function |
| Authorizer.CreateResourceRules | lib/jsonapi/authorization/authorizer.rb:40-46 | Allowed exactly when the class passes `create?` and every related record passes `update?`. A refused class fails even with no related records, after that one check |
| Authorizer.CreateResourceInOrder | lib/jsonapi/authorization/authorizer.rb:40-46 | The loop equals the specification function |
| PunditOperationsProcessor.AuthorizeReadsUserAndAction | lib/jsonapi/authorization/pundit_operations_processor.rb:44-61 | The callback reads the context itself only for `user` and `action`, and passes it on to `find_by_key`: operations whose contexts agree on both, and under which that lookup finds the same record, are authorized alike |
| PunditOperationsProcessor.RelatedModelsOrder | lib/jsonapi/authorization/pundit_operations_processor.rb:67-77 | No data gives no records. Otherwise the records of every to-one relationship come first, then those of every to-many relationship, and the first failing lookup decides |
| PunditOperationsProcessor.AuthorizeRules | lib/jsonapi/authorization/pundit_operations_processor.rb:15-21 | The first check is the action's query, on the class for index and create and on the record otherwise. A refusal there is the only check. The call is allowed exactly when that check passes, the related models are found and each passes `update?`. Without data only the first check is made, and the call is fail-fast |
| PunditOperationsProcessor.AuthorizeInOrder | lib/jsonapi/authorization/pundit_operations_processor.rb:15-21 | The callback with its loop equals its specification function |
| PunditOperationsProcessor.LifecycleRules | lib/jsonapi/authorization/pundit_operations_processor.rb:7-13 | An operation makes checks exactly when it is find, create_resource or replace_fields; those first check the action's query on the primary subject and keep the fail-fast discipline, and every other operation passes untouched |
| PunditScopedResource.Records | lib/jsonapi/authorization/pundit_scoped_resource.rb:9-11 | The listing keeps exactly the model's records the user's scope lets through, and no record occurs in it more often than among the model's records |
| PunditScopedResource.RecordsFor | lib/jsonapi/authorization/pundit_scoped_resource.rb:14-26 | A to-one relationship answers its record unchanged. A to-many one answers exactly the associated records the scope lets through. Any other relationship raises |
| ResourcePolicyAuthorization.Records | lib/jsonapi/authorization/resource_policy_authorization.rb:9-11 | The listing keeps exactly the model's records the user's scope lets through |
| ResourcePolicyAuthorization.AuthorizeModel | lib/jsonapi/authorization/resource_policy_authorization.rb:14-18 | Before save and remove, one check of the action's query on the resource's model decides |
| ResourcePolicyAuthorization.RecordsForMatchesScopedResource | lib/jsonapi/authorization/resource_policy_authorization.rb:20-40 | Intended version (`RecordsFor`): when it lets the call through, `records_for` answers exactly what the scope-only mixin answers; where that mixin raises, so does this one |
| ResourcePolicyAuthorization.RecordsForChecks | lib/jsonapi/authorization/resource_policy_authorization.rb:20-51 | Intended version (`RecordsFor`): a to-one relationship makes one check of the action's query on its record, nil included. A to-many one makes no check for index and show. Otherwise the action's query is checked on every scoped record, and the call is allowed exactly when each passes. The call is fail-fast |
| ResourcePolicyAuthorization.AsWrittenRaisesOnToMany | lib/jsonapi/authorization/resource_policy_authorization.rb:32-34 | As written, every to-many `records_for` for an action other than index and show raises ArgumentError, even when the intended version allows it; on every other path the two agree |
| ResourcePolicyAuthorization.AsWrittenUpdateExample | lib/jsonapi/authorization/resource_policy_authorization.rb:32-34 | An `update` of an article whose one comment the user may update raises as written, while the intended version allows it after one check |
| Configuration.UserContextAfterConfigure | lib/jsonapi/authorization/configuration.rb:15-32 | After the library loads and a `configure` block runs, `user_context` reads the key or calls the callable assigned last to `pundit_user`, and reads `:user` when the block assigned none |
| Configuration.Config.Set | lib/jsonapi/authorization/configuration.rb:8 | An accessor assignment changes that one setting |
| Configuration.Registry.Load | lib/jsonapi/authorization/configuration.rb:28 | The configuration is created once with the defaults and kept afterwards |
| Configuration.Registry.Configure | lib/jsonapi/authorization/configuration.rb:30-32 | `configure` applies the block's assignments, in order, to the one configuration object |
| Configuration.AssignAllPunditUser | lib/jsonapi/authorization/configuration.rb:8 | After a sequence of assignments, `pundit_user` is the one assigned last, or unchanged when none assigns it |
| Configuration.UntouchedPunditUser | lib/jsonapi/authorization/configuration.rb:8 | Assignments that never set `pundit_user` leave it as it was |
| Configuration.UntouchedAuthorizer | lib/jsonapi/authorization/configuration.rb:8 | Assignments that never set `authorizer` leave it as it was |
| Configuration.LastPunditUserWins | lib/jsonapi/authorization/configuration.rb:30-32 | The `pundit_user` assigned last is the one in force |
| Configuration.LastAuthorizerWins | lib/jsonapi/authorization/configuration.rb:30-32 | The authorizer class assigned last is the one in force |
| Configuration.ConfigureComposes | lib/jsonapi/authorization/configuration.rb:30-32 | Two `configure` blocks in a row act as one block with both sets of assignments |
| Configuration.LoadIsIdempotent | lib/jsonapi/authorization/configuration.rb:28 | A second load returns the object the first load made or found, with its settings unchanged; a first load on an empty holder makes a fresh object with the defaults |

## Left out

- Pundit's own machinery is not modelled: policy lookup, policy classes, scopes and `NotAuthorizedError`. It is an oracle: `Policies` says which methods a policy defines, what each answers, and which records a scope keeps.
- Host lookups are total functions given as parameters: `find_by_key`, `find_by_keys`, `find`, `where`, relationship readers, `records_for` and `resource_for`. Their own exceptions are not modelled, so the code's nil guards after `find_by_key` never fire.
- A missing relationship is modelled as NoMethodError (`resource_klass` called on nil). What jsonapi-resources would raise first is not modelled.
- `relation_name(context)` is folded into the association readers of the record graph.
- A custom authorizer class chosen in the configuration is not modelled. The current processor always builds the default authorizer for the configured user. The older processor takes its authorizer as an abstract oracle built from the context.
- AuthorizingProcessor.RelatedModelsWithContext: the data is taken as present. With no data the code returns a three-key Hash (`relationship`, `relation_name`, `records`), which the authorizer would then iterate as key-value pairs.
- PunditOperationsProcessor.RelatedModels: a single to-one id is taken as a one-element id list. `find(id)` and `find([id])` name the same record, and a nil to-one id (which makes `find` raise) is not modelled.
- AuthorizingProcessor.AuthorizeShowRelationship: line 75 of `authorizing_processor.rb` reads `source_klass` and `source_id`, which are locals of `authorize_show_related_resource` only, and passes `relationship.type` where a relationship name is expected. The model looks the related record up through the processor's resource class, the parent key and the relationship name, which is what the request tests of that endpoint expect. Whether the host resolves those two names or raises NameError there is not modelled.
- AuthorizingOperationsProcessor.AssocModels: a single id or a nil to-one value is given as a one-element or empty key list. `where(primary_key => v)` finds the same records for `v` as for `[v]`, and for nil it finds none, since no record has a null key.
- Pundit.ActionQuery: an action that is neither a string nor nil interpolates as the empty string here. Ruby would use the object's `to_s`.
- `Configuration`: replacing the whole configuration object through the `configuration=` accessor is not modelled, so `Configure` requires the object to exist.
- Operation results are reduced to an errors result or a list of resource models. Serialization, the HTTP layer and the commented-out logging callback in `pundit_operations_processor.rb` are left out.
- `resources_from_relationship` in `authorizing_processor.rb` is replaced by the host's relationship readers.

## Findings

The discrepancy is exhibited by `ResourcePolicyAuthorization.AsWrittenRaisesOnToMany` and `ResourcePolicyAuthorization.AsWrittenUpdateExample`. The intended behaviour is proved by `ResourcePolicyAuthorization.RecordsForChecks`.

| source | as written | input that shows it | evidently intended | confidence | as-written member | corrected member |
|---|---|---|---|---|---|---|
| lib/jsonapi/authorization/resource_policy_authorization.rb:33 | `records.each(&authorize_record)` calls `authorize_record` with no argument to build the block, so it raises ArgumentError before any record is visited | `records_for(:comments)` on a resource whose context action is `update`, where the user may update every comment | check the action's query on each scoped record, passing each record to `authorize_record` | not executed | ResourcePolicyAuthorization.RecordsForAsWritten | ResourcePolicyAuthorization.RecordsFor |
