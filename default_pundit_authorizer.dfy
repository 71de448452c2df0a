/**
 * The authority gateway: `JSONAPI::Authorization::DefaultPunditAuthorizer`.
 *
 * One function per operation, each the ordered checks the Ruby method makes
 * through `::Pundit.authorize` or through a policy's relationship-specific
 * method.  The authorizer's only state is its principal, fixed when it is
 * created; here that principal and the policy oracle form the `Gate` every
 * function takes.
 */
module DefaultPunditAuthorizer {
  import opened Outcomes
  import opened Pundit

  datatype Cardinality = ToOne | ToMany

  /** One element of `related_records_with_context`. */
  datatype BundleEntry = BundleEntry(relationType: Cardinality, relationName: string, records: Related)

  /** The relationship-specific permission method: `"#{prefix}#{relationship}?"`. */
  function PermissionName(prefix: string, relationship: string): (q: Query)
    ensures |q| == |prefix| + |relationship| + 1
    ensures q[..|prefix|] == prefix && q[|q| - 1] == '?'
    ensures q[|prefix|..|q| - 1] == relationship
  {
    prefix + relationship + "?"
  }

  const ReplacePrefix: string := "replace_"
  const AddToPrefix: string := "add_to_"
  const RemoveFromPrefix: string := "remove_from_"
  const RemovePrefix: string := "remove_"
  const CreateWithPrefix: string := "create_with_"

  /** GET /resources */
  function Find(g: Gate, sourceClass: string): Outcome<Check>
  {
    g.Authorize(ModelClass(sourceClass), "index?")
  }

  /** GET /resources/:id */
  function Show(g: Gate, sourceRecord: Record): Outcome<Check>
  {
    g.Authorize(Instance(sourceRecord), "show?")
  }

  /** `show?` on the source, then `show?` on the related record unless it is nil. */
  function ShowWithRelated(g: Gate, sourceRecord: Record, relatedRecord: Option<Record>): Outcome<Check>
  {
    Then(g.Authorize(Instance(sourceRecord), "show?"),
         if relatedRecord.None? then Pass() else g.Authorize(Instance(relatedRecord.value), "show?"))
  }

  /** GET /resources/:id/relationships/... */
  function ShowRelationship(g: Gate, sourceRecord: Record, relatedRecord: Option<Record>): Outcome<Check>
  {
    ShowWithRelated(g, sourceRecord, relatedRecord)
  }

  /** GET /resources/:id/another-resource */
  function ShowRelatedResource(g: Gate, sourceRecord: Record, relatedRecord: Option<Record>): Outcome<Check>
  {
    ShowWithRelated(g, sourceRecord, relatedRecord)
  }

  /** GET /resources/:id/other-resources */
  function ShowRelatedResources(g: Gate, sourceRecord: Record, relatedRecordClass: string): Outcome<Check>
  {
    Then(g.Authorize(Instance(sourceRecord), "show?"), g.Authorize(ModelClass(relatedRecordClass), "index?"))
  }

  /** PATCH /resources/:id */
  function ReplaceFields(g: Gate, sourceRecord: Record, bundle: seq<BundleEntry>): Outcome<Check>
  {
    Then(g.Authorize(Instance(sourceRecord), "update?"), AuthorizeRelatedRecords(g, sourceRecord, bundle))
  }

  /** POST /resources */
  function CreateResource(g: Gate, sourceClass: string, bundle: seq<BundleEntry>): Outcome<Check>
  {
    Then(g.Authorize(ModelClass(sourceClass), "create?"), CreateWith(g, sourceClass, bundle))
  }

  /** The `related_records_with_context.each` loop of `create_resource`. */
  function CreateWith(g: Gate, sourceClass: string, bundle: seq<BundleEntry>): Outcome<Check>
    decreases |bundle|
  {
    if bundle == [] then Pass()
    else Then(CreateWithEntry(g, sourceClass, bundle[0]), CreateWith(g, sourceClass, bundle[1..]))
  }

  /**
   * One entry of `create_resource`: the class policy's `create_with_<rel>?`
   * alone when defined (called with the records, a refusal naming the class),
   * otherwise `update?` on every element of `Array(records)`.
   */
  function CreateWithEntry(g: Gate, sourceClass: string, entry: BundleEntry): Outcome<Check>
  {
    var m := PermissionName(CreateWithPrefix, entry.relationName);
    if g.policies.responds(ModelClass(sourceClass), m) then
      Ask(g.Permits(Check(ModelClass(sourceClass), m, entry.records)), Check(ModelClass(sourceClass), m, entry.records))
    else
      g.AuthorizeEach(Wrap(entry.records), "update?")
  }

  /** DELETE /resources/:id */
  function RemoveResource(g: Gate, sourceRecord: Record): Outcome<Check>
  {
    g.Authorize(Instance(sourceRecord), "destroy?")
  }

  /** PATCH /resources/:id/relationships/another-resource */
  function ReplaceToOneRelationship(g: Gate, sourceRecord: Record, newRelatedRecord: Related, relationshipType: string): Outcome<Check>
  {
    AuthorizeRelationshipOperation(g, sourceRecord, PermissionName(ReplacePrefix, relationshipType), newRelatedRecord)
  }

  /** POST /resources/:id/relationships/other-resources */
  function CreateToManyRelationship(g: Gate, sourceRecord: Record, newRelatedRecords: Related, relationshipType: string): Outcome<Check>
  {
    AuthorizeRelationshipOperation(g, sourceRecord, PermissionName(AddToPrefix, relationshipType), newRelatedRecords)
  }

  /** PATCH /resources/:id/relationships/other-resources */
  function ReplaceToManyRelationship(g: Gate, sourceRecord: Record, newRelatedRecords: Related, relationshipType: string): Outcome<Check>
  {
    AuthorizeRelationshipOperation(g, sourceRecord, PermissionName(ReplacePrefix, relationshipType), newRelatedRecords)
  }

  /** DELETE /resources/:id/relationships/other-resources */
  function RemoveToManyRelationship(g: Gate, sourceRecord: Record, relatedRecords: Related, relationshipType: string): Outcome<Check>
  {
    AuthorizeRelationshipOperation(g, sourceRecord, PermissionName(RemoveFromPrefix, relationshipType), relatedRecords)
  }

  /** DELETE /resources/:id/relationships/another-resource */
  function RemoveToOneRelationship(g: Gate, sourceRecord: Record, relationshipType: string): Outcome<Check>
  {
    AuthorizeRelationshipOperation(g, sourceRecord, PermissionName(RemovePrefix, relationshipType), Absent)
  }

  /** `?include=` of a to-many relationship: `index?` on the related class; the source is not consulted. */
  function IncludeHasManyResource(g: Gate, sourceRecord: Record, recordClass: string): Outcome<Check>
  {
    g.Authorize(ModelClass(recordClass), "index?")
  }

  /** `?include=` of a to-one relationship: `show?` on the related record; the source is not consulted. */
  function IncludeHasOneResource(g: Gate, sourceRecord: Record, relatedRecord: Record): Outcome<Check>
  {
    g.Authorize(Instance(relatedRecord), "show?")
  }

  /**
   * The specific method alone when the source's policy defines it (called
   * with the related value, or with no argument when that is nil), otherwise
   * `update?` on the source and then on every related record.
   */
  function AuthorizeRelationshipOperation(g: Gate, sourceRecord: Record, relationshipMethod: Query, related: Related): Outcome<Check>
  {
    if g.policies.responds(Instance(sourceRecord), relationshipMethod) then
      Ask(g.Permits(Check(Instance(sourceRecord), relationshipMethod, related)),
          Check(Instance(sourceRecord), relationshipMethod, related))
    else if related.Absent? then
      g.Authorize(Instance(sourceRecord), "update?")
    else
      Then(g.Authorize(Instance(sourceRecord), "update?"), g.AuthorizeEach(Wrap(related), "update?"))
  }

  /** The `related_records_with_context.each` loop of `replace_fields`. */
  function AuthorizeRelatedRecords(g: Gate, sourceRecord: Record, bundle: seq<BundleEntry>): Outcome<Check>
    decreases |bundle|
  {
    if bundle == [] then Pass()
    else Then(AuthorizeRelatedRecord(g, sourceRecord, bundle[0]), AuthorizeRelatedRecords(g, sourceRecord, bundle[1..]))
  }

  function AuthorizeRelatedRecord(g: Gate, sourceRecord: Record, entry: BundleEntry): Outcome<Check>
  {
    match entry.relationType
    case ToMany => ReplaceToManyRelationship(g, sourceRecord, entry.records, entry.relationName)
    case ToOne =>
      if entry.records.Absent? then RemoveToOneRelationship(g, sourceRecord, entry.relationName)
      else ReplaceToOneRelationship(g, sourceRecord, entry.records, entry.relationName)
  }

  // ---------------------------------------------------------------------
  // The loops, as the Ruby code runs them
  // ---------------------------------------------------------------------

  /** `authorize_relationship_operation`, its fallback running the `Array(...).each` loop. */
  method AuthorizeRelationshipOperationInOrder(g: Gate, sourceRecord: Record, relationshipMethod: Query, related: Related)
    returns (o: Outcome<Check>)
    ensures o == AuthorizeRelationshipOperation(g, sourceRecord, relationshipMethod, related)
  {
    if g.policies.responds(Instance(sourceRecord), relationshipMethod) {
      var c := Check(Instance(sourceRecord), relationshipMethod, related);
      return Ask(g.Permits(c), c);
    }
    o := g.Authorize(Instance(sourceRecord), "update?");
    if o.verdict.Allowed? && !related.Absent? {
      var rest := AuthorizeEachInOrder(g, Wrap(related), "update?");
      o := Then(o, rest);
    }
  }

  /** `replace_fields`: the `update?` check, then the bundle loop. */
  method ReplaceFieldsInOrder(g: Gate, sourceRecord: Record, bundle: seq<BundleEntry>) returns (o: Outcome<Check>)
    ensures o == ReplaceFields(g, sourceRecord, bundle)
  {
    o := g.Authorize(Instance(sourceRecord), "update?");
    if !o.verdict.Allowed? {
      return;
    }
    var i := 0;
    while i < |bundle|
      invariant 0 <= i <= |bundle|
      invariant o.verdict.Allowed?
      invariant ReplaceFields(g, sourceRecord, bundle) == Then(o, AuthorizeRelatedRecords(g, sourceRecord, bundle[i..]))
    {
      assert bundle[i..][1..] == bundle[i + 1..];
      var entry := bundle[i];
      var step: Outcome<Check>;
      match entry.relationType {
        case ToMany =>
          step := AuthorizeRelationshipOperationInOrder(g, sourceRecord, PermissionName(ReplacePrefix, entry.relationName), entry.records);
        case ToOne =>
          if entry.records.Absent? {
            step := AuthorizeRelationshipOperationInOrder(g, sourceRecord, PermissionName(RemovePrefix, entry.relationName), Absent);
          } else {
            step := AuthorizeRelationshipOperationInOrder(g, sourceRecord, PermissionName(ReplacePrefix, entry.relationName), entry.records);
          }
      }
      ThenAssociative(o, step, AuthorizeRelatedRecords(g, sourceRecord, bundle[i + 1..]));
      o := Then(o, step);
      if !o.verdict.Allowed? {
        return;
      }
      i := i + 1;
    }
    ThenPassRight(o);
  }

  /** `create_resource`: the `create?` check, then the bundle loop with its inner `Array(records).each`. */
  method CreateResourceInOrder(g: Gate, sourceClass: string, bundle: seq<BundleEntry>) returns (o: Outcome<Check>)
    ensures o == CreateResource(g, sourceClass, bundle)
  {
    o := g.Authorize(ModelClass(sourceClass), "create?");
    if !o.verdict.Allowed? {
      return;
    }
    var i := 0;
    while i < |bundle|
      invariant 0 <= i <= |bundle|
      invariant o.verdict.Allowed?
      invariant CreateResource(g, sourceClass, bundle) == Then(o, CreateWith(g, sourceClass, bundle[i..]))
    {
      assert bundle[i..][1..] == bundle[i + 1..];
      var m := PermissionName(CreateWithPrefix, bundle[i].relationName);
      var step: Outcome<Check>;
      if g.policies.responds(ModelClass(sourceClass), m) {
        var c := Check(ModelClass(sourceClass), m, bundle[i].records);
        step := Ask(g.Permits(c), c);
      } else {
        step := AuthorizeEachInOrder(g, Wrap(bundle[i].records), "update?");
      }
      ThenAssociative(o, step, CreateWith(g, sourceClass, bundle[i + 1..]));
      o := Then(o, step);
      if !o.verdict.Allowed? {
        return;
      }
      i := i + 1;
    }
    ThenPassRight(o);
  }

  // ---------------------------------------------------------------------
  // Properties
  // ---------------------------------------------------------------------

  /** None of the operations raises anything but a refusal. */
  predicate Decided(o: Outcome<Check>)
  {
    !o.verdict.Raised?
  }

  /** find, show, remove_resource and the two include checks make exactly one check each. */
  lemma SingleCheckOperations(g: Gate, sourceClass: string, sourceRecord: Record, relatedRecord: Record)
    ensures Find(g, sourceClass) == Ask(g.Permits(Check(ModelClass(sourceClass), "index?", Absent)), Check(ModelClass(sourceClass), "index?", Absent))
    ensures Show(g, sourceRecord) == Ask(g.Permits(Check(Instance(sourceRecord), "show?", Absent)), Check(Instance(sourceRecord), "show?", Absent))
    ensures RemoveResource(g, sourceRecord) == Ask(g.Permits(Check(Instance(sourceRecord), "destroy?", Absent)), Check(Instance(sourceRecord), "destroy?", Absent))
    ensures IncludeHasManyResource(g, sourceRecord, sourceClass) == Find(g, sourceClass)
    ensures IncludeHasOneResource(g, sourceRecord, relatedRecord) == Show(g, relatedRecord)
  {
  }

  /** The include checks ignore the source record they are given. */
  lemma IncludeIgnoresSource(g: Gate, source1: Record, source2: Record, relatedRecord: Record, recordClass: string)
    ensures IncludeHasOneResource(g, source1, relatedRecord) == IncludeHasOneResource(g, source2, relatedRecord)
    ensures IncludeHasManyResource(g, source1, recordClass) == IncludeHasManyResource(g, source2, recordClass)
  {
  }

  /**
   * show_relationship and show_related_resource: `show?` on the source first;
   * the related record is checked only when the source passes and it is
   * present; a nil related record leaves the source check alone.
   */
  lemma ShowWithRelatedOrder(g: Gate, sourceRecord: Record, relatedRecord: Option<Record>)
    ensures ShowRelationship(g, sourceRecord, relatedRecord) == ShowRelatedResource(g, sourceRecord, relatedRecord)
    ensures var o := ShowRelationship(g, sourceRecord, relatedRecord);
      var first := Check(Instance(sourceRecord), "show?", Absent);
      && o.trace[0] == first
      && (!g.Permits(first) ==> o == Outcome(Denied(first), [first]))
      && (relatedRecord.None? ==> o == g.Authorize(Instance(sourceRecord), "show?"))
      && (g.Permits(first) && relatedRecord.Some? ==>
            && o.trace == [first, Check(Instance(relatedRecord.value), "show?", Absent)]
            && o == Then(Ask(true, first), g.Authorize(Instance(relatedRecord.value), "show?")))
  {
    ThenPassRight(g.Authorize(Instance(sourceRecord), "show?"));
  }

  /** show_related_resources: `show?` on the source, and only if it passes `index?` on the related class. */
  lemma ShowRelatedResourcesOrder(g: Gate, sourceRecord: Record, relatedRecordClass: string)
    ensures var o := ShowRelatedResources(g, sourceRecord, relatedRecordClass);
      var first := Check(Instance(sourceRecord), "show?", Absent);
      var second := Check(ModelClass(relatedRecordClass), "index?", Absent);
      && (!g.Permits(first) ==> o == Outcome(Denied(first), [first]))
      && (g.Permits(first) ==> o.trace == [first, second] && (o.verdict.Allowed? <==> g.Permits(second)))
  {
  }

  /** The generic permission methods every policy has. */
  const GenericQueries: set<Query> := {"index?", "show?", "create?", "update?", "destroy?"}

  /**
   * No relationship-specific permission name is a generic one, whatever the
   * relationship is called: a policy's `update?` is never mistaken for a
   * relationship method, nor the other way round.
   */
  lemma SpecificNamesAreNotGeneric(relationship: string)
    ensures PermissionName(ReplacePrefix, relationship) !in GenericQueries
    ensures PermissionName(AddToPrefix, relationship) !in GenericQueries
    ensures PermissionName(RemoveFromPrefix, relationship) !in GenericQueries
    ensures PermissionName(RemovePrefix, relationship) !in GenericQueries
    ensures PermissionName(CreateWithPrefix, relationship) !in GenericQueries
  {
    // Every generic name is at most eight characters long; a specific name of
    // that length starts with a letter no generic name of that length has.
    assert |"index?"| == 6 && |"show?"| == 5 && |"create?"| == 7 && |"update?"| == 7 && |"destroy?"| == 8;
    assert "destroy?"[0] == 'd';
    assert |PermissionName(ReplacePrefix, relationship)| >= 9;
    assert |PermissionName(RemoveFromPrefix, relationship)| >= 13;
    assert |PermissionName(CreateWithPrefix, relationship)| >= 13;
    assert PermissionName(AddToPrefix, relationship)[0] == 'a';
    assert PermissionName(RemovePrefix, relationship)[0] == 'r';
  }

  /**
   * A defined relationship-specific method decides alone: one check, that
   * method on the source with the related value, a refusal naming the method
   * and the source; `update?` is not asked.
   */
  lemma SpecificMethodDecidesAlone(g: Gate, sourceRecord: Record, relationshipMethod: Query, related: Related)
    requires g.policies.responds(Instance(sourceRecord), relationshipMethod)
    ensures var o := AuthorizeRelationshipOperation(g, sourceRecord, relationshipMethod, related);
      var c := Check(Instance(sourceRecord), relationshipMethod, related);
      && o.trace == [c]
      && (o.verdict.Allowed? <==> g.Permits(c))
      && (!g.Permits(c) ==> o.verdict == Denied(c))
  {
  }

  /**
   * The fallback for an undefined specific method: `update?` on the source,
   * then `update?` on every related record in order; a nil or empty related
   * value leaves the source check alone.
   */
  lemma FallbackChecksSourceThenRelated(g: Gate, sourceRecord: Record, relationshipMethod: Query, related: Related)
    requires !g.policies.responds(Instance(sourceRecord), relationshipMethod)
    ensures AuthorizeRelationshipOperation(g, sourceRecord, relationshipMethod, related)
      == Then(g.Authorize(Instance(sourceRecord), "update?"), g.AuthorizeEach(Wrap(related), "update?"))
    ensures Wrap(related) == [] ==>
      AuthorizeRelationshipOperation(g, sourceRecord, relationshipMethod, related) == g.Authorize(Instance(sourceRecord), "update?")
  {
    ThenPassRight(g.Authorize(Instance(sourceRecord), "update?"));
  }

  /**
   * When the specific method is defined, two policies that agree on it give
   * the same outcome whatever they answer to `update?` or anything else;
   * when they disagree on it, the outcome flips.
   */
  lemma SpecificMethodIsExclusive(g1: Gate, g2: Gate, sourceRecord: Record, relationshipMethod: Query, related: Related)
    requires g1.policies.responds(Instance(sourceRecord), relationshipMethod)
    requires g2.policies.responds(Instance(sourceRecord), relationshipMethod)
    ensures var c := Check(Instance(sourceRecord), relationshipMethod, related);
      g1.Permits(c) == g2.Permits(c) <==>
      AuthorizeRelationshipOperation(g1, sourceRecord, relationshipMethod, related)
        == AuthorizeRelationshipOperation(g2, sourceRecord, relationshipMethod, related)
  {
  }

  /** Without the specific method, only the `update?` answers matter. */
  lemma {:induction false} FallbackFollowsUpdate(g1: Gate, g2: Gate, sourceRecord: Record, relationshipMethod: Query, related: Related)
    requires !g1.policies.responds(Instance(sourceRecord), relationshipMethod)
    requires !g2.policies.responds(Instance(sourceRecord), relationshipMethod)
    requires forall s :: g1.Permits(Check(s, "update?", Absent)) == g2.Permits(Check(s, "update?", Absent))
    ensures AuthorizeRelationshipOperation(g1, sourceRecord, relationshipMethod, related)
      == AuthorizeRelationshipOperation(g2, sourceRecord, relationshipMethod, related)
  {
    AuthorizeEachFollowsUpdate(g1, g2, Wrap(related));
  }

  lemma {:induction false} AuthorizeEachFollowsUpdate(g1: Gate, g2: Gate, records: seq<Record>)
    requires forall s :: g1.Permits(Check(s, "update?", Absent)) == g2.Permits(Check(s, "update?", Absent))
    ensures g1.AuthorizeEach(records, "update?") == g2.AuthorizeEach(records, "update?")
    decreases |records|
  {
    if records != [] {
      AuthorizeEachFollowsUpdate(g1, g2, records[1..]);
      assert g1.Permits(Check(Instance(records[0]), "update?", Absent)) == g2.Permits(Check(Instance(records[0]), "update?", Absent));
    }
  }

  lemma AuthorizeRelationshipOperationFailsFast(g: Gate, sourceRecord: Record, relationshipMethod: Query, related: Related)
    ensures Decided(AuthorizeRelationshipOperation(g, sourceRecord, relationshipMethod, related))
    ensures FailsFast(AuthorizeRelationshipOperation(g, sourceRecord, relationshipMethod, related), g.Grants())
  {
    AuthorizeEachFailsFast(g, Wrap(related), "update?");
    AuthorizeEachDecides(g, Wrap(related), "update?");
    ThenFailsFast(g.Authorize(Instance(sourceRecord), "update?"), g.AuthorizeEach(Wrap(related), "update?"), g.Grants());
  }

  /**
   * Each bundle entry of replace_fields follows the naming table: a to-one
   * entry with nil records asks `remove_<rel>?`, any other entry
   * `replace_<rel>?`, with the entry's records as the related value.
   */
  lemma AuthorizeRelatedRecordFollowsTable(g: Gate, sourceRecord: Record, entry: BundleEntry)
    ensures AuthorizeRelatedRecord(g, sourceRecord, entry)
      == AuthorizeRelationshipOperation(g, sourceRecord,
           (if entry.relationType == ToOne && entry.records.Absent? then "remove_" else "replace_") + entry.relationName + "?",
           entry.records)
  {
  }

  lemma {:induction false} AuthorizeRelatedRecordsFailsFast(g: Gate, sourceRecord: Record, bundle: seq<BundleEntry>)
    ensures Decided(AuthorizeRelatedRecords(g, sourceRecord, bundle))
    ensures FailsFast(AuthorizeRelatedRecords(g, sourceRecord, bundle), g.Grants())
    decreases |bundle|
  {
    if bundle != [] {
      var entry := bundle[0];
      var m := (if entry.relationType == ToOne && entry.records.Absent? then "remove_" else "replace_") + entry.relationName + "?";
      AuthorizeRelatedRecordFollowsTable(g, sourceRecord, entry);
      AuthorizeRelationshipOperationFailsFast(g, sourceRecord, m, entry.records);
      AuthorizeRelatedRecordsFailsFast(g, sourceRecord, bundle[1..]);
      ThenFailsFast(AuthorizeRelatedRecord(g, sourceRecord, bundle[0]), AuthorizeRelatedRecords(g, sourceRecord, bundle[1..]), g.Grants());
    }
  }

  /**
   * replace_fields asks `update?` on the source before anything in the bundle;
   * a refusal there stops everything, and an empty bundle leaves it alone.
   */
  lemma ReplaceFieldsSourceFirst(g: Gate, sourceRecord: Record, bundle: seq<BundleEntry>)
    ensures var o := ReplaceFields(g, sourceRecord, bundle);
      var first := Check(Instance(sourceRecord), "update?", Absent);
      && o.trace[0] == first
      && (!g.Permits(first) ==> o == Outcome(Denied(first), [first]))
      && (bundle == [] ==> o == g.Authorize(Instance(sourceRecord), "update?"))
      && Decided(o)
      && FailsFast(o, g.Grants())
  {
    ThenPassRight(g.Authorize(Instance(sourceRecord), "update?"));
    AuthorizeRelatedRecordsFailsFast(g, sourceRecord, bundle);
    ThenFailsFast(g.Authorize(Instance(sourceRecord), "update?"), AuthorizeRelatedRecords(g, sourceRecord, bundle), g.Grants());
  }

  /**
   * An empty to-many entry in replace_fields still reaches the relationship
   * rule: the specific `replace_<rel>?` is called with the empty array when
   * defined; otherwise the source's `update?` is asked a second time.
   */
  lemma EmptyToManyEntry(g: Gate, sourceRecord: Record, relationName: string)
    requires g.Permits(Check(Instance(sourceRecord), "update?", Absent))
    ensures var o := ReplaceFields(g, sourceRecord, [BundleEntry(ToMany, relationName, Many([]))]);
      var first := Check(Instance(sourceRecord), "update?", Absent);
      var specific := Check(Instance(sourceRecord), "replace_" + relationName + "?", Many([]));
      && (g.policies.responds(Instance(sourceRecord), "replace_" + relationName + "?") ==>
            o.trace == [first, specific] && (o.verdict.Allowed? <==> g.Permits(specific)))
      && (!g.policies.responds(Instance(sourceRecord), "replace_" + relationName + "?") ==>
            o == Outcome(Allowed, [first, first]))
  {
    var bundle := [BundleEntry(ToMany, relationName, Many([]))];
    var first := g.Authorize(Instance(sourceRecord), "update?");
    var step := AuthorizeRelatedRecord(g, sourceRecord, bundle[0]);
    assert bundle[1..] == [];
    assert PermissionName(ReplacePrefix, relationName) == "replace_" + relationName + "?";
    assert step == AuthorizeRelationshipOperation(g, sourceRecord, "replace_" + relationName + "?", Many([]));
    ThenPassRight(step);
    assert AuthorizeRelatedRecords(g, sourceRecord, bundle) == step;
    if !g.policies.responds(Instance(sourceRecord), "replace_" + relationName + "?") {
      ThenPassRight(first);
      assert step == first;
    }
  }

  lemma {:induction false} CreateWithFailsFast(g: Gate, sourceClass: string, bundle: seq<BundleEntry>)
    ensures Decided(CreateWith(g, sourceClass, bundle))
    ensures FailsFast(CreateWith(g, sourceClass, bundle), g.Grants())
    decreases |bundle|
  {
    if bundle != [] {
      AuthorizeEachFailsFast(g, Wrap(bundle[0].records), "update?");
      AuthorizeEachDecides(g, Wrap(bundle[0].records), "update?");
      CreateWithFailsFast(g, sourceClass, bundle[1..]);
      ThenFailsFast(CreateWithEntry(g, sourceClass, bundle[0]), CreateWith(g, sourceClass, bundle[1..]), g.Grants());
    }
  }

  /**
   * One entry of create_resource: a defined `create_with_<rel>?` on the class
   * policy decides alone, called with the records, and a refusal names the
   * class; otherwise `update?` on each element of `Array(records)`, so a nil
   * entry checks nothing.
   */
  lemma CreateWithEntryRule(g: Gate, sourceClass: string, entry: BundleEntry)
    ensures var m := "create_with_" + entry.relationName + "?";
      var o := CreateWithEntry(g, sourceClass, entry);
      && (g.policies.responds(ModelClass(sourceClass), m) ==>
            o == Ask(g.Permits(Check(ModelClass(sourceClass), m, entry.records)), Check(ModelClass(sourceClass), m, entry.records))
            && (o.verdict.Denied? ==> o.verdict.refused.subject == ModelClass(sourceClass)))
      && (!g.policies.responds(ModelClass(sourceClass), m) ==> o == g.AuthorizeEach(Wrap(entry.records), "update?"))
      && (!g.policies.responds(ModelClass(sourceClass), m) && entry.records.Absent? ==> o == Pass())
  {
  }

  /** create_resource asks `create?` on the class first; a refusal there stops everything, even with an empty bundle. */
  lemma CreateResourceClassFirst(g: Gate, sourceClass: string, bundle: seq<BundleEntry>)
    ensures var o := CreateResource(g, sourceClass, bundle);
      var first := Check(ModelClass(sourceClass), "create?", Absent);
      && o.trace[0] == first
      && (!g.Permits(first) ==> o == Outcome(Denied(first), [first]))
      && (bundle == [] ==> o == g.Authorize(ModelClass(sourceClass), "create?"))
      && Decided(o)
      && FailsFast(o, g.Grants())
  {
    ThenPassRight(g.Authorize(ModelClass(sourceClass), "create?"));
    CreateWithFailsFast(g, sourceClass, bundle);
    ThenFailsFast(g.Authorize(ModelClass(sourceClass), "create?"), CreateWith(g, sourceClass, bundle), g.Grants());
  }

  /**
   * Creating with two new related records, `create?` granted, no
   * `create_with_<rel>?`, the second record's `update?` refused: forbidden by
   * that second check, after exactly three checks.
   */
  lemma CreateWithRefusedRelatedRecord(g: Gate, sourceClass: string, relationName: string, r1: Record, r2: Record)
    requires g.Permits(Check(ModelClass(sourceClass), "create?", Absent))
    requires !g.policies.responds(ModelClass(sourceClass), "create_with_" + relationName + "?")
    requires g.Permits(Check(Instance(r1), "update?", Absent))
    requires !g.Permits(Check(Instance(r2), "update?", Absent))
    ensures CreateResource(g, sourceClass, [BundleEntry(ToMany, relationName, Many([r1, r2]))])
      == Outcome(Denied(Check(Instance(r2), "update?", Absent)),
                 [Check(ModelClass(sourceClass), "create?", Absent), Check(Instance(r1), "update?", Absent), Check(Instance(r2), "update?", Absent)])
  {
    var entry := BundleEntry(ToMany, relationName, Many([r1, r2]));
    var u1 := Check(Instance(r1), "update?", Absent);
    var u2 := Check(Instance(r2), "update?", Absent);
    assert [entry][1..] == [];
    assert [r1, r2][1..] == [r2];
    assert [r2][1..] == [];
    assert PermissionName(CreateWithPrefix, relationName) == "create_with_" + relationName + "?";
    assert g.AuthorizeEach([r2], "update?") == Outcome(Denied(u2), [u2]);
    assert g.AuthorizeEach([r1, r2], "update?") == Outcome(Denied(u2), [u1, u2]);
    assert CreateWithEntry(g, sourceClass, entry) == Outcome(Denied(u2), [u1, u2]);
    assert CreateWith(g, sourceClass, [entry]) == Outcome(Denied(u2), [u1, u2]);
  }

  /** The five relationship operations keep the fail-fast discipline and raise nothing but refusals. */
  lemma RelationshipOperationsFailFast(g: Gate, sourceRecord: Record, related: Related, relationshipType: string)
    ensures Decided(ReplaceToOneRelationship(g, sourceRecord, related, relationshipType))
         && FailsFast(ReplaceToOneRelationship(g, sourceRecord, related, relationshipType), g.Grants())
    ensures Decided(CreateToManyRelationship(g, sourceRecord, related, relationshipType))
         && FailsFast(CreateToManyRelationship(g, sourceRecord, related, relationshipType), g.Grants())
    ensures Decided(ReplaceToManyRelationship(g, sourceRecord, related, relationshipType))
         && FailsFast(ReplaceToManyRelationship(g, sourceRecord, related, relationshipType), g.Grants())
    ensures Decided(RemoveToManyRelationship(g, sourceRecord, related, relationshipType))
         && FailsFast(RemoveToManyRelationship(g, sourceRecord, related, relationshipType), g.Grants())
    ensures Decided(RemoveToOneRelationship(g, sourceRecord, relationshipType))
         && FailsFast(RemoveToOneRelationship(g, sourceRecord, relationshipType), g.Grants())
  {
    AuthorizeRelationshipOperationFailsFast(g, sourceRecord, PermissionName(ReplacePrefix, relationshipType), related);
    AuthorizeRelationshipOperationFailsFast(g, sourceRecord, PermissionName(AddToPrefix, relationshipType), related);
    AuthorizeRelationshipOperationFailsFast(g, sourceRecord, PermissionName(RemoveFromPrefix, relationshipType), related);
    AuthorizeRelationshipOperationFailsFast(g, sourceRecord, PermissionName(RemovePrefix, relationshipType), Absent);
  }

  /**
   * Every resource operation of the gateway keeps the fail-fast discipline
   * and raises nothing but refusals; `RelationshipOperationsFailFast` covers
   * the relationship operations.
   */
  lemma ResourceOperationsFailFast(g: Gate, sourceClass: string, sourceRecord: Record, relatedRecord: Option<Record>,
                                bundle: seq<BundleEntry>)
    ensures Decided(Find(g, sourceClass)) && FailsFast(Find(g, sourceClass), g.Grants())
    ensures Decided(Show(g, sourceRecord)) && FailsFast(Show(g, sourceRecord), g.Grants())
    ensures Decided(RemoveResource(g, sourceRecord)) && FailsFast(RemoveResource(g, sourceRecord), g.Grants())
    ensures Decided(ShowRelationship(g, sourceRecord, relatedRecord)) && FailsFast(ShowRelationship(g, sourceRecord, relatedRecord), g.Grants())
    ensures Decided(ShowRelatedResource(g, sourceRecord, relatedRecord)) && FailsFast(ShowRelatedResource(g, sourceRecord, relatedRecord), g.Grants())
    ensures Decided(ShowRelatedResources(g, sourceRecord, sourceClass)) && FailsFast(ShowRelatedResources(g, sourceRecord, sourceClass), g.Grants())
    ensures Decided(ReplaceFields(g, sourceRecord, bundle)) && FailsFast(ReplaceFields(g, sourceRecord, bundle), g.Grants())
    ensures Decided(CreateResource(g, sourceClass, bundle)) && FailsFast(CreateResource(g, sourceClass, bundle), g.Grants())
  {
    var first := g.Authorize(Instance(sourceRecord), "show?");
    ThenFailsFast(first, if relatedRecord.None? then Pass() else g.Authorize(Instance(relatedRecord.value), "show?"), g.Grants());
    ThenFailsFast(first, g.Authorize(ModelClass(sourceClass), "index?"), g.Grants());
    ReplaceFieldsSourceFirst(g, sourceRecord, bundle);
    CreateResourceClassFirst(g, sourceClass, bundle);
  }
}
