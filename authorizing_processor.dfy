/**
 * `JSONAPI::Authorization::AuthorizingProcessor`: the jsonapi-resources
 * processor whose callbacks turn each operation's request parameters into
 * calls on the authorizer.
 *
 * Before each operation a callback finds the records involved (through the
 * host's resource classes, abstracted as `Host`) and calls the matching
 * authorizer method; after six of the operations a second callback walks the
 * `?include=` directives over every resource returned.  The authorizer is
 * the default Pundit one, created on first use from the configured
 * principal extractor and then kept.
 */
module AuthorizingProcessor {
  import opened Outcomes
  import opened Pundit
  import opened IncludeWalk
  import D = DefaultPunditAuthorizer
  import Configuration

  /** A resource key as the request gives it. */
  type Key = string

  /** `operation_type` */
  datatype OperationType =
    | Find | Show | ShowRelationship | ShowRelatedResource | ShowRelatedResources
    | CreateResource | RemoveResource | ReplaceFields
    | ReplaceToOneRelationship | RemoveToOneRelationship
    | CreateToManyRelationships | ReplaceToManyRelationships | RemoveToManyRelationships
    | ReplacePolymorphicToOneRelationship

  /** The operations `authorize_include_directive` runs after. */
  const IncludeAfter: set<OperationType> :=
    {Find, Show, ShowRelatedResource, ShowRelatedResources, CreateResource, ReplaceFields}

  /** The value a request gives one relationship under `data[:to_one]` or `data[:to_many]`. */
  datatype AssocValue =
    | NilValue                          // nil
    | TypedId(typeName: string, id: Key)  // a Hash: a polymorphic `{type:, id:}`
    | Ids(ids: seq<Key>)                // an Array of ids
    | OneId(id: Key)                    // a single id

  datatype Assoc = Assoc(name: string, value: AssocValue)

  /** The relationship part of `params[:data]` for create_resource and replace_fields, in request order. */
  datatype FieldData = FieldData(toOne: seq<Assoc>, toMany: seq<Assoc>)

  /**
   * `params`.  `data` is the id list of the to-many relationship operations
   * and `fields` the relationship part of a resource body; the Ruby code
   * reads both from `params[:data]`.
   */
  datatype Params = Params(
    id: Key, sourceId: Key, resourceId: Key, parentKey: Key,
    sourceKlass: ResourceKlass, relationshipType: string,
    keyValue: Option<Key>, keyType: string,
    data: seq<Key>, associatedKeys: seq<Key>,
    fields: FieldData,
    includeDirectives: Option<seq<Directive>>)

  /**
   * The host framework's lookups: the schema and record graph of the include
   * walk; `find_by_key(...)._model`; `find_by_keys(...).map(&:_model)`; a
   * model class's `find(ids)`; the record behind `resources_from_relationship(...).first`
   * (nil when there is none); `resource_for(type)`; and a resource's
   * `_model_class_name(type)`.
   */
  datatype Host = Host(
    schema: Schema,
    findByKey: (ResourceKlass, Key) -> Record,
    findByKeys: (ResourceKlass, seq<Key>) -> seq<Record>,
    findModels: (string, seq<Key>) -> seq<Record>,
    relatedRecord: (ResourceKlass, Key, string) -> Option<Record>,
    resourceFor: string -> ResourceKlass,
    modelClassName: (Record, string) -> string)

  /** `operation_resource_id`: the parameter naming the operation's own record. */
  function OperationResourceId(op: OperationType, p: Params): (k: Key)
    ensures op == Show ==> k == p.id
    ensures op == ShowRelatedResources ==> k == p.sourceId
    ensures op != Show && op != ShowRelatedResources ==> k == p.resourceId
  {
    match op
    case Show => p.id
    case ShowRelatedResources => p.sourceId
    case _ => p.resourceId
  }

  /** `resource_class_for_relationship(name)`: calling `resource_klass` on a missing relationship fails. */
  function RelatedKlass(h: Host, klass: ResourceKlass, name: string): (r: Result<ResourceKlass>)
    ensures h.schema.relationship(klass, name).None? <==> r == Failure(NoMethodError)
    ensures h.schema.relationship(klass, name).Some? ==> r == Success(h.schema.relationship(klass, name).value.resourceKlass)
  {
    match h.schema.relationship(klass, name)
    case None => Failure(NoMethodError)
    case Some(rel) => Success(rel.resourceKlass)
  }

  // ---------------------------------------------------------------------
  // `Array#uniq`
  // ---------------------------------------------------------------------

  predicate Distinct(s: seq<Key>)
  {
    forall i, j :: 0 <= i < j < |s| ==> s[i] != s[j]
  }

  /** The keys with later repetitions dropped, first occurrences in order. */
  function Uniq(s: seq<Key>): (r: seq<Key>)
    ensures forall x :: x in r <==> x in s
    ensures Distinct(r)
    ensures |r| <= |s|
    decreases |s|
  {
    if s == [] then []
    else
      var rest := Uniq(s[..|s| - 1]);
      if s[|s| - 1] in rest then rest else rest + [s[|s| - 1]]
  }

  /** The count the Ruby code compares with: it equals the number of keys exactly when no key repeats. */
  lemma {:induction false} UniqCount(s: seq<Key>)
    ensures Distinct(s) ==> Uniq(s) == s
    ensures !Distinct(s) ==> |Uniq(s)| < |s|
    decreases |s|
  {
    if s != [] {
      var init := s[..|s| - 1];
      var last := s[|s| - 1];
      UniqCount(init);
      assert s == init + [last];
      if Distinct(s) {
        assert Distinct(init);
        assert last !in init;
      } else if Distinct(init) {
        var i, j :| 0 <= i < j < |s| && s[i] == s[j];
        assert j == |s| - 1;
        assert last in init;
      }
    }
  }

  lemma {:induction false} DistinctCardinality(s: seq<Key>)
    requires Distinct(s)
    ensures |set k | k in s| == |s|
    decreases |s|
  {
    if s != [] {
      var init := s[..|s| - 1];
      var last := s[|s| - 1];
      assert s == init + [last];
      assert Distinct(init);
      DistinctCardinality(init);
      assert last !in init;
      assert (set k | k in s) == (set k | k in init) + {last};
    }
  }

  /** `keys.uniq.size`: the number of distinct keys given. */
  lemma UniqCountsDistinctKeys(s: seq<Key>)
    ensures |Uniq(s)| == |set k | k in s|
  {
    DistinctCardinality(Uniq(s));
    assert (set k | k in Uniq(s)) == (set k | k in s);
  }

  // ---------------------------------------------------------------------
  // `related_models_with_context`
  // ---------------------------------------------------------------------

  /** The records one relationship value names: nil, the record a type and id name, or the records its ids name. */
  function RelatedModels(h: Host, klass: ResourceKlass, a: Assoc): Result<Related>
  {
    match a.value
    case NilValue => Success(Absent)
    case TypedId(t, id) => Success(One(h.findByKey(h.resourceFor(t), id)))
    case Ids(ids) =>
      (match RelatedKlass(h, klass, a.name)
       case Failure(f) => Failure(f)
       case Success(rk) =>
         var found := h.findByKeys(rk, ids);
         if |found| != |Uniq(ids)| then Failure(RecordNotFound) else Success(Many(found)))
    case OneId(id) =>
      match RelatedKlass(h, klass, a.name)
      case Failure(f) => Failure(f)
      case Success(rk) => Success(One(h.findByKey(rk, id)))
  }

  /** The entries for one of `data[:to_one]` / `data[:to_many]`, in order; the first failure propagates. */
  function Entries(h: Host, klass: ResourceKlass, kind: D.Cardinality, assocs: seq<Assoc>): Result<seq<D.BundleEntry>>
    decreases |assocs|
  {
    if assocs == [] then Success([])
    else
      match RelatedModels(h, klass, assocs[0])
      case Failure(f) => Failure(f)
      case Success(records) =>
        match Entries(h, klass, kind, assocs[1..])
        case Failure(f) => Failure(f)
        case Success(rest) => Success([D.BundleEntry(kind, assocs[0].name, records)] + rest)
  }

  /** `related_models_with_context`: every to-one entry, then every to-many entry. */
  function RelatedModelsWithContext(h: Host, klass: ResourceKlass, data: FieldData): Result<seq<D.BundleEntry>>
  {
    match Entries(h, klass, D.ToOne, data.toOne)
    case Failure(f) => Failure(f)
    case Success(ones) =>
      match Entries(h, klass, D.ToMany, data.toMany)
      case Failure(f) => Failure(f)
      case Success(manys) => Success(ones + manys)
  }

  // ---------------------------------------------------------------------
  // The before-callbacks
  // ---------------------------------------------------------------------

  function AuthorizeFind(h: Host, g: Gate, klass: ResourceKlass): Outcome<Check>
  {
    D.Find(g, h.schema.modelClass(klass))
  }

  function AuthorizeShow(h: Host, g: Gate, klass: ResourceKlass, p: Params): Outcome<Check>
  {
    D.Show(g, h.findByKey(klass, OperationResourceId(Show, p)))
  }

  /** The related record is looked up for a to-one relationship only; any other kind raises before a check. */
  function AuthorizeShowRelationship(h: Host, g: Gate, klass: ResourceKlass, p: Params): Outcome<Check>
  {
    match h.schema.relationship(klass, p.relationshipType)
    case None => Raise(UnexpectedRelationship)
    case Some(rel) =>
      var related := if rel.kind == ToOneKind then h.relatedRecord(klass, p.parentKey, p.relationshipType) else None;
      D.ShowRelationship(g, h.findByKey(klass, p.parentKey), related)
  }

  function AuthorizeShowRelatedResource(h: Host, g: Gate, p: Params): Outcome<Check>
  {
    D.ShowRelatedResource(g, h.findByKey(p.sourceKlass, p.sourceId), h.relatedRecord(p.sourceKlass, p.sourceId, p.relationshipType))
  }

  function AuthorizeShowRelatedResources(h: Host, g: Gate, klass: ResourceKlass, p: Params): Outcome<Check>
  {
    D.ShowRelatedResources(g, h.findByKey(p.sourceKlass, p.sourceId), h.schema.modelClass(klass))
  }

  function AuthorizeReplaceFields(h: Host, g: Gate, klass: ResourceKlass, p: Params): Outcome<Check>
  {
    match RelatedModelsWithContext(h, klass, p.fields)
    case Failure(f) => Raise(f)
    case Success(bundle) => D.ReplaceFields(g, h.findByKey(klass, p.resourceId), bundle)
  }

  function AuthorizeCreateResource(h: Host, g: Gate, klass: ResourceKlass, p: Params): Outcome<Check>
  {
    match RelatedModelsWithContext(h, klass, p.fields)
    case Failure(f) => Raise(f)
    case Success(bundle) => D.CreateResource(g, h.schema.modelClass(klass), bundle)
  }

  function AuthorizeRemoveResource(h: Host, g: Gate, klass: ResourceKlass, p: Params): Outcome<Check>
  {
    D.RemoveResource(g, h.findByKey(klass, OperationResourceId(RemoveResource, p)))
  }

  /** A nil `key_value` is a removal. */
  function AuthorizeReplaceToOne(h: Host, g: Gate, klass: ResourceKlass, p: Params): Outcome<Check>
  {
    if p.keyValue.None? then AuthorizeRemoveToOne(h, g, klass, p)
    else
      match RelatedKlass(h, klass, p.relationshipType)
      case Failure(f) => Raise(f)
      case Success(rk) =>
        D.ReplaceToOneRelationship(g, h.findByKey(klass, p.resourceId), One(h.findByKey(rk, p.keyValue.value)), p.relationshipType)
  }

  function AuthorizeCreateToMany(h: Host, g: Gate, klass: ResourceKlass, p: Params): Outcome<Check>
  {
    match RelatedKlass(h, klass, p.relationshipType)
    case Failure(f) => Raise(f)
    case Success(rk) =>
      D.CreateToManyRelationship(g, h.findByKey(klass, p.resourceId), Many(h.findModels(h.schema.modelClass(rk), p.data)), p.relationshipType)
  }

  function AuthorizeReplaceToMany(h: Host, g: Gate, klass: ResourceKlass, p: Params): Outcome<Check>
  {
    match RelatedKlass(h, klass, p.relationshipType)
    case Failure(f) => Raise(f)
    case Success(rk) =>
      D.ReplaceToManyRelationship(g, h.findByKey(klass, p.resourceId), Many(h.findModels(h.schema.modelClass(rk), p.data)), p.relationshipType)
  }

  /** Fails with RecordNotFound, before any check, when a requested key found no record. */
  function AuthorizeRemoveToMany(h: Host, g: Gate, klass: ResourceKlass, p: Params): Outcome<Check>
  {
    match RelatedKlass(h, klass, p.relationshipType)
    case Failure(f) => Raise(f)
    case Success(rk) =>
      var related := h.findByKeys(rk, p.associatedKeys);
      if |related| != |Uniq(p.associatedKeys)| then Raise(RecordNotFound)
      else D.RemoveToManyRelationship(g, h.findByKey(klass, p.resourceId), Many(related), p.relationshipType)
  }

  function AuthorizeRemoveToOne(h: Host, g: Gate, klass: ResourceKlass, p: Params): Outcome<Check>
  {
    D.RemoveToOneRelationship(g, h.findByKey(klass, p.resourceId), p.relationshipType)
  }

  /** The new record's resource class comes from the request's type; the permission name does not. */
  function AuthorizeReplacePolymorphicToOne(h: Host, g: Gate, klass: ResourceKlass, p: Params): Outcome<Check>
  {
    if p.keyValue.None? then AuthorizeRemoveToOne(h, g, klass, p)
    else
      var source := h.findByKey(klass, p.resourceId);
      var rk := h.resourceFor(h.modelClassName(source, p.keyType));
      D.ReplaceToOneRelationship(g, source, One(h.findByKey(rk, p.keyValue.value)), p.relationshipType)
  }

  /** The before-callback registered for each operation. */
  function Before(h: Host, g: Gate, op: OperationType, klass: ResourceKlass, p: Params): Outcome<Check>
  {
    match op
    case Find => AuthorizeFind(h, g, klass)
    case Show => AuthorizeShow(h, g, klass, p)
    case ShowRelationship => AuthorizeShowRelationship(h, g, klass, p)
    case ShowRelatedResource => AuthorizeShowRelatedResource(h, g, p)
    case ShowRelatedResources => AuthorizeShowRelatedResources(h, g, klass, p)
    case CreateResource => AuthorizeCreateResource(h, g, klass, p)
    case RemoveResource => AuthorizeRemoveResource(h, g, klass, p)
    case ReplaceFields => AuthorizeReplaceFields(h, g, klass, p)
    case ReplaceToOneRelationship => AuthorizeReplaceToOne(h, g, klass, p)
    case RemoveToOneRelationship => AuthorizeRemoveToOne(h, g, klass, p)
    case CreateToManyRelationships => AuthorizeCreateToMany(h, g, klass, p)
    case ReplaceToManyRelationships => AuthorizeReplaceToMany(h, g, klass, p)
    case RemoveToManyRelationships => AuthorizeRemoveToMany(h, g, klass, p)
    case ReplacePolymorphicToOneRelationship => AuthorizeReplacePolymorphicToOne(h, g, klass, p)
  }

  // ---------------------------------------------------------------------
  // The after-callback: include authorization
  // ---------------------------------------------------------------------

  /** The check the default authorizer makes for an include call. */
  function CheckFor(c: IncludeCall): Check
  {
    match c
    case HasOne(_, related) => Check(Instance(related), "show?", Absent)
    case HasMany(_, recordClass) => Check(ModelClass(recordClass), "index?", Absent)
  }

  /** The authorizer's answer to an include call. */
  function IncludeGrants(g: Gate): IncludeCall -> bool
  {
    c => g.Permits(CheckFor(c))
  }

  /** `authorize_include_directive`, its calls answered by the default authorizer. */
  function AuthorizeIncludeDirective(h: Host, g: Gate, klass: ResourceKlass, p: Params, result: OperationResult): Outcome<Check>
  {
    MapOutcome(IncludeDirective(h.schema, IncludeGrants(g), klass, p.includeDirectives, result), CheckFor)
  }

  /** One operation's authorization: the before-callback, then (when registered and nothing raised) the include walk. */
  function Lifecycle(h: Host, g: Gate, op: OperationType, klass: ResourceKlass, p: Params, result: OperationResult): Outcome<Check>
  {
    Then(Before(h, g, op, klass, p), if op in IncludeAfter then AuthorizeIncludeDirective(h, g, klass, p, result) else Pass())
  }

  /** A processor instance: one operation's class, type, parameters and context, and the memoized authorizer. */
  class Processor {
    const resourceKlass: ResourceKlass
    const operationType: OperationType
    const params: Params
    const context: Context
    var authorizer: Option<Gate>

    constructor (resourceKlass: ResourceKlass, operationType: OperationType, params: Params, context: Context)
      ensures this.resourceKlass == resourceKlass && this.operationType == operationType
      ensures this.params == params && this.context == context
      ensures authorizer == None
    {
      this.resourceKlass := resourceKlass;
      this.operationType := operationType;
      this.params := params;
      this.context := context;
      authorizer := None;
    }

    /**
     * `authorizer`: on first use a new authorizer for the principal the
     * configuration extracts from the context; afterwards the same one.
     */
    method Authorizer(config: Configuration.Config, policies: Policies) returns (g: Gate)
      modifies this
      ensures old(authorizer).Some? ==> g == old(authorizer).value
      ensures old(authorizer).None? ==> g == Gate(config.UserContext(context), policies)
      ensures authorizer == Some(g)
    {
      if authorizer.None? {
        authorizer := Some(Gate(config.UserContext(context), policies));
      }
      g := authorizer.value;
    }

    /** Runs the operation's callbacks around an operation that produced `result`. */
    method Run(h: Host, config: Configuration.Config, policies: Policies, result: OperationResult) returns (o: Outcome<Check>)
      modifies this
      ensures authorizer.Some?
      ensures old(authorizer).Some? ==> authorizer == old(authorizer)
      ensures old(authorizer).None? ==> authorizer == Some(Gate(config.UserContext(context), policies))
      ensures o == Lifecycle(h, authorizer.value, operationType, resourceKlass, params, result)
    {
      var g := Authorizer(config, policies);
      o := Before(h, g, operationType, resourceKlass, params);
      if o.verdict.Allowed? && operationType in IncludeAfter {
        var walk := IncludeDirectiveInOrder(h.schema, IncludeGrants(g), resourceKlass, params.includeDirectives, result);
        o := Then(o, MapOutcome(walk, CheckFor));
      }
    }
  }

  // ---------------------------------------------------------------------
  // Properties
  // ---------------------------------------------------------------------

  /**
   * show makes exactly one `show?` check, on the record `id` names;
   * remove_resource exactly one `destroy?` check, on the record
   * `resource_id` names; show_related_resources first checks `show?` on the
   * record `source_id` names.  Each is allowed exactly when its check passes.
   */
  lemma OwnRecordLookups(h: Host, g: Gate, klass: ResourceKlass, p: Params)
    ensures var c := Check(Instance(h.findByKey(klass, p.id)), "show?", Absent);
      Before(h, g, Show, klass, p) == Outcome(if g.Permits(c) then Allowed else Denied(c), [c])
    ensures var c := Check(Instance(h.findByKey(klass, p.resourceId)), "destroy?", Absent);
      Before(h, g, RemoveResource, klass, p) == Outcome(if g.Permits(c) then Allowed else Denied(c), [c])
    ensures Before(h, g, ShowRelatedResources, klass, p).trace[0]
      == Check(Instance(h.findByKey(p.sourceKlass, p.sourceId)), "show?", Absent)
  {
  }

  /**
   * show_relationship: `show?` on the parent is the first check, and a
   * refusal there ends it.  For a to-many relationship it is the only check,
   * whatever the parent's related records are.  For a to-one relationship the
   * related record is checked next, unless it is nil.  Any other
   * relationship raises before any check.
   */
  lemma ShowRelationshipCases(h: Host, other: Host, g: Gate, klass: ResourceKlass, p: Params)
    requires other == h.(relatedRecord := other.relatedRecord)
    ensures var o := Before(h, g, ShowRelationship, klass, p);
      var parent := Check(Instance(h.findByKey(klass, p.parentKey)), "show?", Absent);
      var rel := h.schema.relationship(klass, p.relationshipType);
      var related := h.relatedRecord(klass, p.parentKey, p.relationshipType);
      && (rel.None? ==> o == Raise(UnexpectedRelationship))
      && (rel.Some? ==> o.trace[0] == parent && (!g.Permits(parent) ==> o == Outcome(Denied(parent), [parent])))
      && (rel.Some? && rel.value.kind == ToManyKind ==>
            && o == Outcome(if g.Permits(parent) then Allowed else Denied(parent), [parent])
            && o == Before(other, g, ShowRelationship, klass, p))
      && (rel.Some? && rel.value.kind == ToOneKind && g.Permits(parent) && related.None? ==> o == Outcome(Allowed, [parent]))
      && (rel.Some? && rel.value.kind == ToOneKind && g.Permits(parent) && related.Some? ==>
            o.trace == [parent, Check(Instance(related.value), "show?", Absent)]
            && (o.verdict.Allowed? <==> g.Permits(Check(Instance(related.value), "show?", Absent))))
  {
    var parent := h.findByKey(klass, p.parentKey);
    D.ShowWithRelatedOrder(g, parent, None);
    D.ShowWithRelatedOrder(g, parent, h.relatedRecord(klass, p.parentKey, p.relationshipType));
  }

  /**
   * Replacing a to-one relationship with a nil `key_value`, plain or
   * polymorphic, is authorized exactly as removing it: one `remove_<rel>?`
   * check on the source, without argument, when the policy defines it, and
   * otherwise one `update?` check on the source.
   */
  lemma NilKeyValueIsRemoval(h: Host, g: Gate, klass: ResourceKlass, p: Params)
    requires p.keyValue.None?
    ensures var o := Before(h, g, RemoveToOneRelationship, klass, p);
      var source := Instance(h.findByKey(klass, p.resourceId));
      var remove := Check(source, "remove_" + p.relationshipType + "?", Absent);
      var update := Check(source, "update?", Absent);
      && Before(h, g, ReplaceToOneRelationship, klass, p) == o
      && Before(h, g, ReplacePolymorphicToOneRelationship, klass, p) == o
      && (g.policies.responds(source, remove.query) ==>
            o == Outcome(if g.Permits(remove) then Allowed else Denied(remove), [remove]))
      && (!g.policies.responds(source, remove.query) ==>
            o == Outcome(if g.Permits(update) then Allowed else Denied(update), [update]))
  {
    var source := h.findByKey(klass, p.resourceId);
    assert D.PermissionName(D.RemovePrefix, p.relationshipType) == "remove_" + p.relationshipType + "?";
    ThenPassRight(g.Authorize(Instance(source), "update?"));
  }

  /**
   * Replacing a to-one relationship with null when the policy defines
   * `remove_<rel>?`: flipping that method's answer alone flips the outcome.
   */
  lemma NullReplaceFollowsRemoveMethod(h: Host, g1: Gate, g2: Gate, klass: ResourceKlass, p: Params)
    requires p.keyValue.None?
    requires var c := Check(Instance(h.findByKey(klass, p.resourceId)), "remove_" + p.relationshipType + "?", Absent);
      && g1.policies.responds(c.subject, c.query) && g2.policies.responds(c.subject, c.query)
      && g1.Permits(c) != g2.Permits(c)
    ensures AuthorizeReplaceToOne(h, g1, klass, p).verdict.Allowed? != AuthorizeReplaceToOne(h, g2, klass, p).verdict.Allowed?
  {
    NilKeyValueIsRemoval(h, g1, klass, p);
    NilKeyValueIsRemoval(h, g2, klass, p);
  }

  /**
   * Replacing a polymorphic to-one relationship: the request's type only
   * picks the class the new record is found through.  Two types that lead
   * to the same record give the same outcome; when the plain relationship
   * finds that record too, the outcome is the plain replacement's; and the
   * permission asked is `replace_<rel>?` on the source with the new record,
   * or `update?` on the source when the policy lacks it.
   */
  lemma PolymorphicUsesPlainName(h: Host, g: Gate, klass: ResourceKlass, p: Params, otherType: string)
    requires p.keyValue.Some?
    ensures var source := h.findByKey(klass, p.resourceId);
      var k := p.keyValue.value;
      var newRecord := h.findByKey(h.resourceFor(h.modelClassName(source, p.keyType)), k);
      var o := Before(h, g, ReplacePolymorphicToOneRelationship, klass, p);
      var replace := Check(Instance(source), "replace_" + p.relationshipType + "?", One(newRecord));
      var rel := h.schema.relationship(klass, p.relationshipType);
      && (h.findByKey(h.resourceFor(h.modelClassName(source, otherType)), k) == newRecord ==>
            o == Before(h, g, ReplacePolymorphicToOneRelationship, klass, p.(keyType := otherType)))
      && (rel.Some? && h.findByKey(rel.value.resourceKlass, k) == newRecord ==>
            o == Before(h, g, ReplaceToOneRelationship, klass, p))
      && (g.policies.responds(Instance(source), replace.query) ==>
            o == Outcome(if g.Permits(replace) then Allowed else Denied(replace), [replace]))
      && (!g.policies.responds(Instance(source), replace.query) ==>
            o.trace[0] == Check(Instance(source), "update?", Absent))
  {
    var source := h.findByKey(klass, p.resourceId);
    var newRecord := h.findByKey(h.resourceFor(h.modelClassName(source, p.keyType)), p.keyValue.value);
    assert D.PermissionName(D.ReplacePrefix, p.relationshipType) == "replace_" + p.relationshipType + "?";
    if !g.policies.responds(Instance(source), "replace_" + p.relationshipType + "?") {
      D.FallbackChecksSourceThenRelated(g, source, "replace_" + p.relationshipType + "?", One(newRecord));
    }
  }

  /**
   * remove_to_many: when the records found for the associated keys do not
   * number the distinct keys given, RecordNotFound is raised before any
   * check; otherwise the records found go to the removal rule.  A
   * relationship the resource lacks fails before any check.
   */
  lemma RemoveToManyCountCheck(h: Host, g: Gate, klass: ResourceKlass, p: Params)
    ensures var rel := h.schema.relationship(klass, p.relationshipType);
      var o := Before(h, g, RemoveToManyRelationships, klass, p);
      && (rel.None? ==> o == Raise(NoMethodError))
      && (rel.Some? ==>
            var found := h.findByKeys(rel.value.resourceKlass, p.associatedKeys);
            && (|found| != |set k | k in p.associatedKeys| ==> o == Raise(RecordNotFound))
            && (|found| == |set k | k in p.associatedKeys| ==>
                  o == D.RemoveToManyRelationship(g, h.findByKey(klass, p.resourceId), Many(found), p.relationshipType)))
  {
    UniqCountsDistinctKeys(p.associatedKeys);
  }

  /**
   * Every callback that resolves the relationship's resource class fails
   * with NoMethodError, before any check, when the resource class lacks the
   * relationship; show_relationship raises its own error; remove_to_one
   * never consults the relationship table and never raises.
   */
  lemma MissingRelationshipRaises(h: Host, g: Gate, klass: ResourceKlass, p: Params)
    requires h.schema.relationship(klass, p.relationshipType).None?
    ensures Before(h, g, ShowRelationship, klass, p) == Raise(UnexpectedRelationship)
    ensures p.keyValue.Some? ==> Before(h, g, ReplaceToOneRelationship, klass, p) == Raise(NoMethodError)
    ensures Before(h, g, CreateToManyRelationships, klass, p) == Raise(NoMethodError)
    ensures Before(h, g, ReplaceToManyRelationships, klass, p) == Raise(NoMethodError)
    ensures Before(h, g, RemoveToManyRelationships, klass, p) == Raise(NoMethodError)
    ensures !Before(h, g, RemoveToOneRelationship, klass, p).verdict.Raised?
  {
    D.RelationshipOperationsFailFast(g, h.findByKey(klass, p.resourceId), Absent, p.relationshipType);
  }

  /** A key given twice is counted once: one record found for `[k, k]` passes the count check. */
  lemma RepeatedKeyCountedOnce(h: Host, g: Gate, klass: ResourceKlass, p: Params, k: Key)
    requires h.schema.relationship(klass, p.relationshipType).Some?
    requires p.associatedKeys == [k, k]
    requires |h.findByKeys(h.schema.relationship(klass, p.relationshipType).value.resourceKlass, [k, k])| == 1
    ensures AuthorizeRemoveToMany(h, g, klass, p) != Raise(RecordNotFound)
  {
    var keys := [k, k];
    assert keys[..1] == [k];
    assert [k][..0] == [];
    assert Uniq([k]) == [k];
    assert Uniq(keys) == [k];
  }

  /** How one relationship value becomes the records of a bundle entry. */
  lemma RelatedModelsRules(h: Host, klass: ResourceKlass, a: Assoc)
    ensures a.value.NilValue? ==> RelatedModels(h, klass, a) == Success(Absent)
    ensures a.value.TypedId? ==>
      RelatedModels(h, klass, a) == Success(One(h.findByKey(h.resourceFor(a.value.typeName), a.value.id)))
    ensures (a.value.Ids? || a.value.OneId?) && h.schema.relationship(klass, a.name).None? ==>
      RelatedModels(h, klass, a) == Failure(NoMethodError)
    ensures a.value.OneId? && h.schema.relationship(klass, a.name).Some? ==>
      RelatedModels(h, klass, a) == Success(One(h.findByKey(h.schema.relationship(klass, a.name).value.resourceKlass, a.value.id)))
    ensures a.value.Ids? && h.schema.relationship(klass, a.name).Some? ==>
      var found := h.findByKeys(h.schema.relationship(klass, a.name).value.resourceKlass, a.value.ids);
      && (|found| != |set k | k in a.value.ids| ==> RelatedModels(h, klass, a) == Failure(RecordNotFound))
      && (|found| == |set k | k in a.value.ids| ==> RelatedModels(h, klass, a) == Success(Many(found)))
  {
    if a.value.Ids? {
      UniqCountsDistinctKeys(a.value.ids);
    }
  }

  /**
   * One side of the bundle: when every value resolves, one entry per
   * relationship in request order, of the given cardinality; otherwise the
   * first failure, in request order.
   */
  lemma {:induction false} EntriesInOrder(h: Host, klass: ResourceKlass, kind: D.Cardinality, assocs: seq<Assoc>)
    ensures var r := Entries(h, klass, kind, assocs);
      && (r.Success? <==> forall i :: 0 <= i < |assocs| ==> RelatedModels(h, klass, assocs[i]).Success?)
      && (r.Success? ==>
            && |r.value| == |assocs|
            && forall i :: 0 <= i < |assocs| ==>
                 r.value[i] == D.BundleEntry(kind, assocs[i].name, RelatedModels(h, klass, assocs[i]).value))
      && (r.Failure? ==>
            exists i :: 0 <= i < |assocs| && RelatedModels(h, klass, assocs[i]).Failure?
              && r.fault == RelatedModels(h, klass, assocs[i]).fault
              && forall j :: 0 <= j < i ==> RelatedModels(h, klass, assocs[j]).Success?)
    decreases |assocs|
  {
    if assocs != [] {
      EntriesInOrder(h, klass, kind, assocs[1..]);
      assert forall i :: 1 <= i < |assocs| ==> assocs[i] == assocs[1..][i - 1];
      var r := Entries(h, klass, kind, assocs);
      var rest := Entries(h, klass, kind, assocs[1..]);
      if RelatedModels(h, klass, assocs[0]).Success? && rest.Failure? {
        var i :| 0 <= i < |assocs[1..]| && RelatedModels(h, klass, assocs[1..][i]).Failure?
              && rest.fault == RelatedModels(h, klass, assocs[1..][i]).fault
              && forall j :: 0 <= j < i ==> RelatedModels(h, klass, assocs[1..][j]).Success?;
        assert forall j :: 0 <= j < i + 1 ==> RelatedModels(h, klass, assocs[j]).Success?;
        assert r.fault == RelatedModels(h, klass, assocs[i + 1]).fault;
      }
    }
  }

  /**
   * `related_models_with_context`: every to-one entry comes before every
   * to-many entry, each side in request order, each entry tagged with the
   * side it came from.
   */
  lemma RelatedModelsWithContextOrder(h: Host, klass: ResourceKlass, data: FieldData)
    ensures var r := RelatedModelsWithContext(h, klass, data);
      && (r.Success? <==>
            Entries(h, klass, D.ToOne, data.toOne).Success? && Entries(h, klass, D.ToMany, data.toMany).Success?)
      && (r.Success? ==>
            && |r.value| == |data.toOne| + |data.toMany|
            && (forall i :: 0 <= i < |data.toOne| ==>
                  && r.value[i].relationType == D.ToOne && r.value[i].relationName == data.toOne[i].name
                  && RelatedModels(h, klass, data.toOne[i]) == Success(r.value[i].records))
            && (forall i :: 0 <= i < |data.toMany| ==>
                  && r.value[|data.toOne| + i].relationType == D.ToMany
                  && r.value[|data.toOne| + i].relationName == data.toMany[i].name
                  && RelatedModels(h, klass, data.toMany[i]) == Success(r.value[|data.toOne| + i].records)))
  {
    EntriesInOrder(h, klass, D.ToOne, data.toOne);
    EntriesInOrder(h, klass, D.ToMany, data.toMany);
  }

  /** Each include call of the walk is the default authorizer's include method. */
  lemma IncludeCallIsGatewayCall(g: Gate, c: IncludeCall)
    ensures MapOutcome(Ask(IncludeGrants(g)(c), c), CheckFor)
      == match c
         case HasOne(source, related) => D.IncludeHasOneResource(g, source, related)
         case HasMany(source, recordClass) => D.IncludeHasManyResource(g, source, recordClass)
  {
  }

  /**
   * The include walk, seen as pundit checks, keeps the fail-fast discipline;
   * after an errors result or without include directives it checks nothing.
   */
  lemma IncludeDirectiveChecks(h: Host, g: Gate, klass: ResourceKlass, p: Params, result: OperationResult)
    ensures FailsFast(AuthorizeIncludeDirective(h, g, klass, p, result), g.Grants())
    ensures result.ErrorsResult? || p.includeDirectives.None? ==> AuthorizeIncludeDirective(h, g, klass, p, result) == Pass()
  {
    IncludeDirectiveRules(h.schema, IncludeGrants(g), klass, p.includeDirectives, result);
    MapFailsFast(IncludeDirective(h.schema, IncludeGrants(g), klass, p.includeDirectives, result), CheckFor, IncludeGrants(g), g.Grants());
  }

  /**
   * The include walk runs only after the six registered operations, only
   * when the operation's own authorization passed, and never after an errors
   * result; its checks follow the operation's own.
   */
  lemma LifecycleRules(h: Host, g: Gate, op: OperationType, klass: ResourceKlass, p: Params, result: OperationResult)
    ensures var before := Before(h, g, op, klass, p);
      var o := Lifecycle(h, g, op, klass, p, result);
      && (op !in IncludeAfter ==> o == before)
      && (!before.verdict.Allowed? ==> o == before)
      && (result.ErrorsResult? ==> o == before)
      && (op in IncludeAfter && before.verdict.Allowed? ==>
            o.trace == before.trace + AuthorizeIncludeDirective(h, g, klass, p, result).trace)
  {
    IncludeDirectiveChecks(h, g, klass, p, result);
    ThenPassRight(Before(h, g, op, klass, p));
  }
}
