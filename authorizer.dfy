/**
 * `JSONAPI::Authorization::Authorizer`: the older authorizer with positional
 * arguments.  Its principal is the context's `user` entry, fixed when it is
 * created; every method is a short sequence of `::Pundit.authorize` calls
 * that stops at the first refusal.
 */
module Authorizer {
  import opened Outcomes
  import opened Pundit

  /** `Authorizer.new(context)`: the principal is `context[:user]`. */
  function New(context: Context, policies: Policies): (g: Gate)
    ensures g.user == Lookup(context, "user") && g.policies == policies
  {
    Gate(Lookup(context, "user"), policies)
  }

  function Find(g: Gate, sourceClass: string): Outcome<Check>
  {
    g.Authorize(ModelClass(sourceClass), "index?")
  }

  function Show(g: Gate, record: Record): Outcome<Check>
  {
    g.Authorize(Instance(record), "show?")
  }

  /** `show?` on the source, then on the related record unless it is nil. */
  function ShowRelationship(g: Gate, sourceRecord: Record, relatedRecord: Option<Record>): Outcome<Check>
  {
    Then(g.Authorize(Instance(sourceRecord), "show?"),
         if relatedRecord.None? then Pass() else g.Authorize(Instance(relatedRecord.value), "show?"))
  }

  function ShowRelatedResource(g: Gate, sourceRecord: Record, relatedRecord: Option<Record>): Outcome<Check>
  {
    ShowRelationship(g, sourceRecord, relatedRecord)
  }

  /** Only the source record is checked. */
  function ShowRelatedResources(g: Gate, record: Record): Outcome<Check>
  {
    g.Authorize(Instance(record), "show?")
  }

  function ReplaceFields(g: Gate, sourceRecord: Record, relatedRecords: seq<Record>): Outcome<Check>
  {
    Then(g.Authorize(Instance(sourceRecord), "update?"), g.AuthorizeEach(relatedRecords, "update?"))
  }

  function CreateResource(g: Gate, sourceClass: string, relatedRecords: seq<Record>): Outcome<Check>
  {
    Then(g.Authorize(ModelClass(sourceClass), "create?"), g.AuthorizeEach(relatedRecords, "update?"))
  }

  function RemoveResource(g: Gate, record: Record): Outcome<Check>
  {
    g.Authorize(Instance(record), "destroy?")
  }

  /** `replace_fields`, its `related_records.each` loop as written. */
  method ReplaceFieldsInOrder(g: Gate, sourceRecord: Record, relatedRecords: seq<Record>) returns (o: Outcome<Check>)
    ensures o == ReplaceFields(g, sourceRecord, relatedRecords)
  {
    o := g.Authorize(Instance(sourceRecord), "update?");
    if o.verdict.Allowed? {
      var rest := AuthorizeEachInOrder(g, relatedRecords, "update?");
      o := Then(o, rest);
    }
  }

  /** `create_resource`, its `related_records.each` loop as written. */
  method CreateResourceInOrder(g: Gate, sourceClass: string, relatedRecords: seq<Record>) returns (o: Outcome<Check>)
    ensures o == CreateResource(g, sourceClass, relatedRecords)
  {
    o := g.Authorize(ModelClass(sourceClass), "create?");
    if o.verdict.Allowed? {
      var rest := AuthorizeEachInOrder(g, relatedRecords, "update?");
      o := Then(o, rest);
    }
  }

  // ---------------------------------------------------------------------
  // Properties
  // ---------------------------------------------------------------------

  /**
   * The authorizer decides every check for the context's `user` entry (nil
   * when the context has none), so two contexts that agree on `user` give
   * the same authorizer, whatever else they hold.
   */
  lemma NewDecidesForContextUser(context: Context, other: Context, policies: Policies)
    ensures forall c :: New(context, policies).Permits(c) <==> policies.permits(Lookup(context, "user"))(c)
    ensures "user" !in context ==> forall c :: New(context, policies).Permits(c) <==> policies.permits(Nil)(c)
    ensures Lookup(context, "user") == Lookup(other, "user") ==> New(context, policies) == New(other, policies)
  {
  }

  /** find, show, show_related_resources and remove_resource: one check each. */
  lemma SingleChecks(g: Gate, sourceClass: string, record: Record)
    ensures Find(g, sourceClass).trace == [Check(ModelClass(sourceClass), "index?", Absent)]
    ensures Show(g, record).trace == [Check(Instance(record), "show?", Absent)]
    ensures ShowRelatedResources(g, record).trace == [Check(Instance(record), "show?", Absent)]
    ensures RemoveResource(g, record).trace == [Check(Instance(record), "destroy?", Absent)]
    ensures Find(g, sourceClass).verdict.Allowed? <==> g.Permits(Check(ModelClass(sourceClass), "index?", Absent))
    ensures Show(g, record).verdict.Allowed? <==> g.Permits(Check(Instance(record), "show?", Absent))
    ensures ShowRelatedResources(g, record).verdict.Allowed? <==> g.Permits(Check(Instance(record), "show?", Absent))
    ensures RemoveResource(g, record).verdict.Allowed? <==> g.Permits(Check(Instance(record), "destroy?", Absent))
  {
  }

  /**
   * show_relationship / show_related_resource: a refused source fails
   * whatever the related record; a nil related record with a permitted
   * source succeeds after the one check; otherwise both must pass.
   */
  lemma ShowRelationshipRules(g: Gate, sourceRecord: Record, relatedRecord: Option<Record>)
    ensures var o := ShowRelationship(g, sourceRecord, relatedRecord);
      var first := Check(Instance(sourceRecord), "show?", Absent);
      && (!g.Permits(first) ==> o == Outcome(Denied(first), [first]))
      && (g.Permits(first) && relatedRecord.None? ==> o == Outcome(Allowed, [first]))
      && (relatedRecord.Some? ==>
            (o.verdict.Allowed? <==> g.Permits(first) && g.Permits(Check(Instance(relatedRecord.value), "show?", Absent))))
    ensures ShowRelatedResource(g, sourceRecord, relatedRecord) == ShowRelationship(g, sourceRecord, relatedRecord)
  {
  }

  /**
   * replace_fields: allowed exactly when the source and every related record
   * pass `update?`; with no related records only the source matters; a
   * refusal is the last check made.
   */
  lemma ReplaceFieldsRules(g: Gate, sourceRecord: Record, relatedRecords: seq<Record>)
    ensures var o := ReplaceFields(g, sourceRecord, relatedRecords);
      && (o.verdict.Allowed? <==>
            g.Permits(Check(Instance(sourceRecord), "update?", Absent))
            && forall i :: 0 <= i < |relatedRecords| ==> g.Permits(Check(Instance(relatedRecords[i]), "update?", Absent)))
      && (relatedRecords == [] ==> o == g.Authorize(Instance(sourceRecord), "update?"))
      && !o.verdict.Raised?
      && FailsFast(o, g.Grants())
  {
    AuthorizeEachDecides(g, relatedRecords, "update?");
    AuthorizeEachFailsFast(g, relatedRecords, "update?");
    ThenFailsFast(g.Authorize(Instance(sourceRecord), "update?"), g.AuthorizeEach(relatedRecords, "update?"), g.Grants());
    ThenPassRight(g.Authorize(Instance(sourceRecord), "update?"));
  }

  /**
   * create_resource: allowed exactly when the class passes `create?` and
   * every related record passes `update?`; a refused class fails even with
   * no related records, after that one check.
   */
  lemma CreateResourceRules(g: Gate, sourceClass: string, relatedRecords: seq<Record>)
    ensures var o := CreateResource(g, sourceClass, relatedRecords);
      var first := Check(ModelClass(sourceClass), "create?", Absent);
      && (o.verdict.Allowed? <==>
            g.Permits(first)
            && forall i :: 0 <= i < |relatedRecords| ==> g.Permits(Check(Instance(relatedRecords[i]), "update?", Absent)))
      && (!g.Permits(first) ==> o == Outcome(Denied(first), [first]))
      && !o.verdict.Raised?
      && FailsFast(o, g.Grants())
  {
    AuthorizeEachDecides(g, relatedRecords, "update?");
    AuthorizeEachFailsFast(g, relatedRecords, "update?");
    ThenFailsFast(g.Authorize(ModelClass(sourceClass), "create?"), g.AuthorizeEach(relatedRecords, "update?"), g.Grants());
  }
}
