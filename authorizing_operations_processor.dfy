/**
 * `JSONAPI::Authorization::AuthorizingOperationsProcessor`: the processor for
 * the older jsonapi-resources operations pipeline.
 *
 * Its callbacks call the configured authorizer with positional arguments.
 * What that authorizer answers is left abstract here: each callback makes
 * (at most) one `LegacyCall`, answered by the oracle `grants`.  The include
 * walk is the same one the current processor runs, its calls lifted into
 * legacy calls.
 */
module AuthorizingOperationsProcessor {
  import opened Outcomes
  import opened Pundit
  import opened IncludeWalk

  type Key = string

  /** One call on the positional authorizer interface. */
  datatype LegacyCall =
    | FindCall(sourceClass: string)
    | ShowCall(record: Record)
    | ShowRelationshipCall(source: Record, related: Option<Record>)
    | ShowRelatedResourceCall(source: Record, related: Option<Record>)
    | ShowRelatedResourcesCall(source: Record)
    | ReplaceFieldsCall(source: Record, relatedModels: seq<Record>)
    | CreateResourceCall(sourceClass: string, relatedModels: seq<Record>)
    | RemoveResourceCall(record: Record)
    | ReplaceToOneCall(source: Record, oldRelated: Related, newRelated: Option<Record>)
    | CreateToManyCall(source: Record, relatedModels: seq<Record>)
    | ReplaceToManyCall(source: Record, relatedRecords: Related)
    | RemoveToManyCall(source: Record, removed: Record)
    | RemoveToOneCall(source: Record, related: Option<Record>)
    | IncludeHasOneCall(source: Record, included: Record)
    | IncludeHasManyCall(source: Record, recordClass: string)

  /** The operation classes of the older pipeline. */
  datatype OperationType =
    | FindOperation | ShowOperation | ShowRelationshipOperation | ShowRelatedResourceOperation
    | ShowRelatedResourcesOperation | CreateResourceOperation | RemoveResourceOperation
    | ReplaceFieldsOperation | ReplaceToOneRelationshipOperation | CreateToManyRelationshipOperation
    | ReplaceToManyRelationshipOperation | RemoveToManyRelationshipOperation | RemoveToOneRelationshipOperation

  const IncludeAfter: set<OperationType> :=
    {FindOperation, ShowOperation, ShowRelatedResourceOperation, ShowRelatedResourcesOperation,
     CreateResourceOperation, ReplaceFieldsOperation}

  /** A relationship value under `data[:to_one]` / `data[:to_many]`. */
  datatype AssocValue = TypedId(typeName: string, id: Key) | Keys(keys: seq<Key>)
  datatype Assoc = Assoc(name: string, value: AssocValue)
  datatype FieldData = FieldData(toOne: seq<Assoc>, toMany: seq<Assoc>)

  /** The fields of `@operation` the callbacks read. */
  datatype Operation = Operation(
    id: Key, resourceId: Key, parentKey: Key, sourceKlass: ResourceKlass, sourceId: Key,
    relationshipType: string, keyValue: Option<Key>, associatedKey: Key,
    data: seq<Key>, fields: Option<FieldData>, includeDirectives: Option<seq<Directive>>)

  /**
   * The host lookups: the walk's schema and graph; `find_by_key(...)._model`;
   * the record a resource's relationship reader returns (nil when none);
   * `records_for(relationship)`; a model class's `find(ids)`;
   * `where(primary_key => keys)`; and `resource_for(type)`.
   */
  datatype Host = Host(
    schema: Schema,
    findByKey: (ResourceKlass, Key) -> Record,
    relatedRecord: (ResourceKlass, Key, string) -> Option<Record>,
    recordsFor: (ResourceKlass, Key, string) -> Related,
    findModels: (string, seq<Key>) -> seq<Record>,
    whereKeys: (string, seq<Key>) -> seq<Record>,
    resourceFor: string -> ResourceKlass)

  /** `operation_resource_id` */
  function OperationResourceId(op: OperationType, o: Operation): (k: Key)
    ensures op == ShowOperation ==> k == o.id
    ensures op == ShowRelatedResourcesOperation ==> k == o.sourceId
    ensures op != ShowOperation && op != ShowRelatedResourcesOperation ==> k == o.resourceId
  {
    match op
    case ShowOperation => o.id
    case ShowRelatedResourcesOperation => o.sourceId
    case _ => o.resourceId
  }

  function RelatedKlass(h: Host, klass: ResourceKlass, name: string): Result<ResourceKlass>
  {
    match h.schema.relationship(klass, name)
    case None => Failure(NoMethodError)
    case Some(rel) => Success(rel.resourceKlass)
  }

  /** The records one relationship value names. */
  function AssocModels(h: Host, klass: ResourceKlass, a: Assoc): Result<seq<Record>>
  {
    match a.value
    case TypedId(t, id) => Success([h.findByKey(h.resourceFor(t), id)])
    case Keys(keys) =>
      match RelatedKlass(h, klass, a.name)
      case Failure(f) => Failure(f)
      case Success(rk) => Success(h.whereKeys(h.schema.modelClass(rk), keys))
  }

  /**
   * `related_models`: nothing without data; otherwise `flat_map` over the
   * to-one side and then the to-many side, each itself a `flat_map` over its
   * relationships.
   */
  function RelatedModels(h: Host, klass: ResourceKlass, data: Option<FieldData>): Result<seq<Record>>
  {
    match data
    case None => Success([])
    case Some(d) => FlatMap([d.toOne, d.toMany], SideStep(h, klass))
  }

  /** The block of the inner `flat_map`. */
  function AssocStep(h: Host, klass: ResourceKlass): Assoc -> Result<seq<Record>>
  {
    a => AssocModels(h, klass, a)
  }

  /** The block of the outer `flat_map`. */
  function SideStep(h: Host, klass: ResourceKlass): seq<Assoc> -> Result<seq<Record>>
  {
    side => FlatMap(side, AssocStep(h, klass))
  }

  /** A call computed from the operation, or the exception raised while computing it. */
  function CallOrRaise(grants: LegacyCall -> bool, r: Result<LegacyCall>): Outcome<LegacyCall>
  {
    match r
    case Failure(f) => Raise(f)
    case Success(c) => Ask(grants(c), c)
  }

  /** The call `authorize_show_relationship` makes: the related record for to-one, nil for to-many, a raise otherwise. */
  function ShowRelationshipCallFor(h: Host, klass: ResourceKlass, o: Operation): Result<LegacyCall>
  {
    match h.schema.relationship(klass, o.relationshipType)
    case None => Failure(UnexpectedRelationship)
    case Some(rel) =>
      var related := if rel.kind == ToOneKind then h.relatedRecord(klass, o.parentKey, o.relationshipType) else None;
      Success(ShowRelationshipCall(h.findByKey(klass, o.parentKey), related))
  }

  /** The call `authorize_replace_to_one_relationship` makes: old records, and the new record unless `key_value` is nil. */
  function ReplaceToOneCallFor(h: Host, klass: ResourceKlass, o: Operation): Result<LegacyCall>
  {
    var source := h.findByKey(klass, o.resourceId);
    var oldRelated := h.recordsFor(klass, o.resourceId, o.relationshipType);
    if o.keyValue.None? then Success(ReplaceToOneCall(source, oldRelated, None))
    else
      match RelatedKlass(h, klass, o.relationshipType)
      case Failure(f) => Failure(f)
      case Success(rk) => Success(ReplaceToOneCall(source, oldRelated, Some(h.findByKey(rk, o.keyValue.value))))
  }

  /** The call each before-callback makes. */
  function CallFor(h: Host, op: OperationType, klass: ResourceKlass, o: Operation): Result<LegacyCall>
  {
    match op
    case FindOperation => Success(FindCall(h.schema.modelClass(klass)))
    case ShowOperation => Success(ShowCall(h.findByKey(klass, OperationResourceId(op, o))))
    case ShowRelationshipOperation => ShowRelationshipCallFor(h, klass, o)
    case ShowRelatedResourceOperation =>
      Success(ShowRelatedResourceCall(h.findByKey(o.sourceKlass, o.sourceId), h.relatedRecord(o.sourceKlass, o.sourceId, o.relationshipType)))
    case ShowRelatedResourcesOperation => Success(ShowRelatedResourcesCall(h.findByKey(o.sourceKlass, o.sourceId)))
    case CreateResourceOperation =>
      (match RelatedModels(h, klass, o.fields)
       case Failure(f) => Failure(f)
       case Success(models) => Success(CreateResourceCall(h.schema.modelClass(klass), models)))
    case RemoveResourceOperation => Success(RemoveResourceCall(h.findByKey(klass, OperationResourceId(op, o))))
    case ReplaceFieldsOperation =>
      (match RelatedModels(h, klass, o.fields)
       case Failure(f) => Failure(f)
       case Success(models) => Success(ReplaceFieldsCall(h.findByKey(klass, o.resourceId), models)))
    case ReplaceToOneRelationshipOperation => ReplaceToOneCallFor(h, klass, o)
    case CreateToManyRelationshipOperation =>
      (match RelatedKlass(h, klass, o.relationshipType)
       case Failure(f) => Failure(f)
       case Success(rk) => Success(CreateToManyCall(h.findByKey(klass, o.resourceId), h.findModels(h.schema.modelClass(rk), o.data))))
    case ReplaceToManyRelationshipOperation =>
      Success(ReplaceToManyCall(h.findByKey(klass, o.resourceId), h.recordsFor(klass, o.resourceId, o.relationshipType)))
    case RemoveToManyRelationshipOperation =>
      (match RelatedKlass(h, klass, o.relationshipType)
       case Failure(f) => Failure(f)
       case Success(rk) => Success(RemoveToManyCall(h.findByKey(klass, o.resourceId), h.findByKey(rk, o.associatedKey))))
    case RemoveToOneRelationshipOperation =>
      Success(RemoveToOneCall(h.findByKey(klass, o.resourceId), h.relatedRecord(klass, o.resourceId, o.relationshipType)))
  }

  /** The before-callback: one call on the authorizer, unless computing its arguments raised. */
  function Before(h: Host, grants: LegacyCall -> bool, op: OperationType, klass: ResourceKlass, o: Operation): Outcome<LegacyCall>
  {
    CallOrRaise(grants, CallFor(h, op, klass, o))
  }

  /** An include call as a positional call. */
  function Lift(c: IncludeCall): LegacyCall
  {
    match c
    case HasOne(source, related) => IncludeHasOneCall(source, related)
    case HasMany(source, recordClass) => IncludeHasManyCall(source, recordClass)
  }

  function LiftedGrants(grants: LegacyCall -> bool): IncludeCall -> bool
  {
    c => grants(Lift(c))
  }

  function AuthorizeIncludeDirective(h: Host, grants: LegacyCall -> bool, klass: ResourceKlass, o: Operation, result: OperationResult): Outcome<LegacyCall>
  {
    MapOutcome(IncludeDirective(h.schema, LiftedGrants(grants), klass, o.includeDirectives, result), Lift)
  }

  function Lifecycle(h: Host, grants: LegacyCall -> bool, op: OperationType, klass: ResourceKlass, o: Operation, result: OperationResult): Outcome<LegacyCall>
  {
    Then(Before(h, grants, op, klass, o), if op in IncludeAfter then AuthorizeIncludeDirective(h, grants, klass, o, result) else Pass())
  }

  /** A processor instance with its memoized authorizer, built from the operation's context. */
  class Processor {
    const resourceKlass: ResourceKlass
    const operationType: OperationType
    const operation: Operation
    const context: Context
    var authorizer: Option<LegacyCall -> bool>

    constructor (resourceKlass: ResourceKlass, operationType: OperationType, operation: Operation, context: Context)
      ensures this.resourceKlass == resourceKlass && this.operationType == operationType
      ensures this.operation == operation && this.context == context
      ensures authorizer == None
    {
      this.resourceKlass := resourceKlass;
      this.operationType := operationType;
      this.operation := operation;
      this.context := context;
      authorizer := None;
    }

    /** `@authorizer ||= configuration.authorizer.new(operation_context)` */
    method Authorizer(build: Context -> (LegacyCall -> bool)) returns (grants: LegacyCall -> bool)
      modifies this
      ensures old(authorizer).Some? ==> grants == old(authorizer).value
      ensures old(authorizer).None? ==> grants == build(context)
      ensures authorizer == Some(grants)
    {
      if authorizer.None? {
        authorizer := Some(build(context));
      }
      grants := authorizer.value;
    }

    method Run(h: Host, build: Context -> (LegacyCall -> bool), result: OperationResult) returns (out: Outcome<LegacyCall>)
      modifies this
      ensures authorizer.Some?
      ensures old(authorizer).Some? ==> authorizer == old(authorizer)
      ensures out == Lifecycle(h, authorizer.value, operationType, resourceKlass, operation, result)
    {
      var grants := Authorizer(build);
      out := Before(h, grants, operationType, resourceKlass, operation);
      if out.verdict.Allowed? && operationType in IncludeAfter {
        var walk := IncludeDirectiveInOrder(h.schema, LiftedGrants(grants), resourceKlass, operation.includeDirectives, result);
        out := Then(out, MapOutcome(walk, Lift));
      }
    }
  }

  // ---------------------------------------------------------------------
  // Properties
  // ---------------------------------------------------------------------

  /** Every before-callback makes at most one call, and only when nothing raised first. */
  lemma BeforeMakesOneCall(h: Host, grants: LegacyCall -> bool, op: OperationType, klass: ResourceKlass, o: Operation)
    ensures var out := Before(h, grants, op, klass, o);
      && (CallFor(h, op, klass, o).Failure? ==> out == Raise(CallFor(h, op, klass, o).fault))
      && (CallFor(h, op, klass, o).Success? ==>
            out.trace == [CallFor(h, op, klass, o).value]
            && (out.verdict.Allowed? <==> grants(CallFor(h, op, klass, o).value)))
      && FailsFast(out, grants)
  {
  }

  /**
   * show and remove_resource each make one call on the record `id` and
   * `resource_id` name respectively, and show_related_resources one call on
   * the record `source_id` names; the authorizer's answer is the verdict.
   */
  lemma OwnRecordCalls(h: Host, grants: LegacyCall -> bool, klass: ResourceKlass, o: Operation)
    ensures var c := ShowCall(h.findByKey(klass, o.id));
      Before(h, grants, ShowOperation, klass, o) == Outcome(if grants(c) then Allowed else Denied(c), [c])
    ensures var c := RemoveResourceCall(h.findByKey(klass, o.resourceId));
      Before(h, grants, RemoveResourceOperation, klass, o) == Outcome(if grants(c) then Allowed else Denied(c), [c])
    ensures var c := ShowRelatedResourcesCall(h.findByKey(o.sourceKlass, o.sourceId));
      Before(h, grants, ShowRelatedResourcesOperation, klass, o) == Outcome(if grants(c) then Allowed else Denied(c), [c])
  {
  }

  /**
   * show_relationship makes one call on the parent.  For a to-many
   * relationship the related record passed is nil, whatever the parent's
   * relationship reader holds; for a to-one relationship it is what that
   * reader returns.  Any other relationship raises before the call.
   */
  lemma ShowRelationshipCases(h: Host, other: Host, grants: LegacyCall -> bool, klass: ResourceKlass, o: Operation)
    requires other == h.(relatedRecord := other.relatedRecord)
    ensures var out := Before(h, grants, ShowRelationshipOperation, klass, o);
      var rel := h.schema.relationship(klass, o.relationshipType);
      var parent := h.findByKey(klass, o.parentKey);
      && (rel.None? ==> out == Raise(UnexpectedRelationship))
      && (rel.Some? ==> |out.trace| == 1 && out.trace[0].ShowRelationshipCall? && out.trace[0].source == parent
                        && (out.verdict.Allowed? <==> grants(out.trace[0])))
      && (rel.Some? && rel.value.kind == ToManyKind ==>
            out.trace[0].related == None && out == Before(other, grants, ShowRelationshipOperation, klass, o))
      && (rel.Some? && rel.value.kind == ToOneKind ==>
            out.trace[0].related == h.relatedRecord(klass, o.parentKey, o.relationshipType))
  {
  }

  /**
   * replace_to_one passes the source, its current related value and the new
   * record; the new record is nil exactly when `key_value` is nil.
   */
  lemma ReplaceToOneArguments(h: Host, klass: ResourceKlass, o: Operation)
    requires h.schema.relationship(klass, o.relationshipType).Some? || o.keyValue.None?
    ensures var r := ReplaceToOneCallFor(h, klass, o);
      && r.Success?
      && r.value.source == h.findByKey(klass, o.resourceId)
      && r.value.oldRelated == h.recordsFor(klass, o.resourceId, o.relationshipType)
      && (r.value.newRelated.None? <==> o.keyValue.None?)
  {
  }

  /**
   * `related_models`: no data gives no records; otherwise the records of
   * every to-one relationship followed by those of every to-many one, as if
   * the two sides were one list of relationships; the first failing lookup
   * decides.
   */
  lemma RelatedModelsOrder(h: Host, klass: ResourceKlass, data: Option<FieldData>)
    ensures data.None? ==> RelatedModels(h, klass, data) == Success([])
    ensures data.Some? ==>
      RelatedModels(h, klass, data) == FlatMap(data.value.toOne + data.value.toMany, AssocStep(h, klass))
  {
    if data.Some? {
      var d := data.value;
      var f := AssocStep(h, klass);
      var one := FlatMap(d.toOne, f);
      var many := FlatMap(d.toMany, f);
      assert SideStep(h, klass)(d.toOne) == one;
      assert SideStep(h, klass)(d.toMany) == many;
      assert [d.toOne, d.toMany][1..] == [d.toMany];
      assert [d.toMany][1..] == [];
      FlatMapConcat(d.toOne, d.toMany, f);
      if many.Success? {
        assert FlatMap([d.toMany], SideStep(h, klass)) == Success(many.value + []);
        assert many.value + [] == many.value;
      } else {
        assert FlatMap([d.toMany], SideStep(h, klass)) == many;
      }
    }
  }

  /** The include walk, lifted, keeps the fail-fast discipline and is skipped after an errors result. */
  lemma IncludeDirectiveRules(h: Host, grants: LegacyCall -> bool, klass: ResourceKlass, o: Operation, result: OperationResult)
    ensures FailsFast(AuthorizeIncludeDirective(h, grants, klass, o, result), grants)
    ensures result.ErrorsResult? ==> AuthorizeIncludeDirective(h, grants, klass, o, result) == Pass()
    ensures forall i :: 0 <= i < |AuthorizeIncludeDirective(h, grants, klass, o, result).trace| ==>
      AuthorizeIncludeDirective(h, grants, klass, o, result).trace[i].IncludeHasOneCall?
      || AuthorizeIncludeDirective(h, grants, klass, o, result).trace[i].IncludeHasManyCall?
  {
    IncludeWalk.IncludeDirectiveRules(h.schema, LiftedGrants(grants), klass, o.includeDirectives, result);
    MapFailsFast(IncludeDirective(h.schema, LiftedGrants(grants), klass, o.includeDirectives, result), Lift, LiftedGrants(grants), grants);
  }

  /** Include authorization follows only the six registered operations, and only once their own call passed. */
  lemma LifecycleRules(h: Host, grants: LegacyCall -> bool, op: OperationType, klass: ResourceKlass, o: Operation, result: OperationResult)
    ensures var before := Before(h, grants, op, klass, o);
      var out := Lifecycle(h, grants, op, klass, o, result);
      && (op !in IncludeAfter ==> out == before)
      && (!before.verdict.Allowed? ==> out == before)
      && (result.ErrorsResult? ==> out == before)
  {
    IncludeDirectiveRules(h, grants, klass, o, result);
    ThenPassRight(Before(h, grants, op, klass, o));
  }
}
