/**
 * `JSONAPI::Authorization::PunditOperationsProcessor`: the earliest
 * processor.  Before find, create_resource and replace_fields it checks the
 * controller action's permission method on the primary subject, then
 * `update?` on every record the request's relationship data names.
 */
module PunditOperationsProcessor {
  import opened Outcomes
  import opened Pundit
  import opened IncludeWalk

  type Key = string

  datatype OperationType = FindOperation | CreateResourceOperation | ReplaceFieldsOperation | OtherOperation

  /** The three operations the processor registers its callback for. */
  const Authorized: set<OperationType> := {FindOperation, CreateResourceOperation, ReplaceFieldsOperation}

  /** One relationship under `data[:to_one]` / `data[:to_many]`: its name and the ids given for it. */
  datatype Assoc = Assoc(name: string, ids: seq<Key>)
  datatype FieldData = FieldData(toOne: seq<Assoc>, toMany: seq<Assoc>)

  /** The fields of `@operation` the callback reads; `context` is `options[:context]`. */
  datatype Operation = Operation(resourceKlass: ResourceKlass, resourceId: Key, context: Context, data: Option<FieldData>)

  /**
   * The relationship table and model classes, `find_by_key(id, context:)._model`
   * (the request context is passed on, so a resource may scope the lookup by
   * it), and a model class's `find(ids)`.
   */
  datatype Host = Host(
    schema: Schema,
    findByKey: (ResourceKlass, Key, Context) -> Record,
    find: (string, seq<Key>) -> seq<Record>)

  /** `pundit_record`: the model class for the index and create actions, otherwise the record named by `resource_id`. */
  function PunditRecord(h: Host, o: Operation): Subject
  {
    if ActionIn(o.context, {"index", "create"}) then ModelClass(h.schema.modelClass(o.resourceKlass))
    else Instance(h.findByKey(o.resourceKlass, o.resourceId, o.context))
  }

  /** `model_class_for_relationship(name).find(ids)`; a relationship the resource lacks is a call on nil. */
  function AssocModels(h: Host, klass: ResourceKlass, a: Assoc): Result<seq<Record>>
  {
    match h.schema.relationship(klass, a.name)
    case None => Failure(NoMethodError)
    case Some(rel) => Success(h.find(h.schema.modelClass(rel.resourceKlass), a.ids))
  }

  /** The block of the inner `flat_map`. */
  function AssocStep(h: Host, klass: ResourceKlass): Assoc -> Result<seq<Record>>
  {
    a => AssocModels(h, klass, a)
  }

  /** The block of the outer `flat_map`. */
  function SideStep(h: Host, klass: ResourceKlass): seq<Assoc> -> Result<seq<Record>>
  {
    side => FlatMap(side, AssocStep(h, klass))
  }

  /** `related_models`: nothing without data; otherwise `flat_map` over the to-one side, then the to-many side. */
  function RelatedModels(h: Host, klass: ResourceKlass, data: Option<FieldData>): Result<seq<Record>>
  {
    match data
    case None => Success([])
    case Some(d) => FlatMap([d.toOne, d.toMany], SideStep(h, klass))
  }

  /** `pundit_user`: the context's `user` entry. */
  function UserGate(policies: Policies, o: Operation): (g: Gate)
    ensures g.user == Lookup(o.context, "user") && g.policies == policies
  {
    Gate(Lookup(o.context, "user"), policies)
  }

  /** `authorize`: the action's query on the primary subject, then `update?` on each related model. */
  function Authorize(h: Host, policies: Policies, o: Operation): Outcome<Check>
  {
    var g := UserGate(policies, o);
    Then(g.Authorize(PunditRecord(h, o), ActionQuery(o.context)),
         match RelatedModels(h, o.resourceKlass, o.data)
         case Failure(f) => Raise(f)
         case Success(models) => g.AuthorizeEach(models, "update?"))
  }

  /** What the processor's callbacks do before an operation of the given type. */
  function Lifecycle(h: Host, policies: Policies, op: OperationType, o: Operation): Outcome<Check>
  {
    if op in Authorized then Authorize(h, policies, o) else Pass()
  }

  /** `authorize` with its `related_models.each` loop, as written. */
  method AuthorizeInOrder(h: Host, policies: Policies, o: Operation) returns (out: Outcome<Check>)
    ensures out == Authorize(h, policies, o)
  {
    var g := UserGate(policies, o);
    out := g.Authorize(PunditRecord(h, o), ActionQuery(o.context));
    if !out.verdict.Allowed? {
      return;
    }
    var related := RelatedModels(h, o.resourceKlass, o.data);
    if related.Failure? {
      out := Then(out, Raise(related.fault));
      return;
    }
    var rest := AuthorizeEachInOrder(g, related.value, "update?");
    out := Then(out, rest);
  }

  // ---------------------------------------------------------------------
  // Properties
  // ---------------------------------------------------------------------

  /**
   * `related_models`: no data gives no records; otherwise the records of
   * every to-one relationship followed by those of every to-many one, as if
   * the two sides were one list; the first failing lookup decides.
   */
  lemma RelatedModelsOrder(h: Host, klass: ResourceKlass, data: Option<FieldData>)
    ensures data.None? ==> RelatedModels(h, klass, data) == Success([])
    ensures data.Some? ==>
      RelatedModels(h, klass, data) == FlatMap(data.value.toOne + data.value.toMany, AssocStep(h, klass))
  {
    if data.Some? {
      var d := data.value;
      var f := AssocStep(h, klass);
      var many := FlatMap(d.toMany, f);
      assert SideStep(h, klass)(d.toOne) == FlatMap(d.toOne, f);
      assert SideStep(h, klass)(d.toMany) == many;
      assert [d.toOne, d.toMany][1..] == [d.toMany];
      assert [d.toMany][1..] == [];
      FlatMapConcat(d.toOne, d.toMany, f);
      if many.Success? {
        assert FlatMap([d.toMany], SideStep(h, klass)) == Success(many.value + []);
        assert many.value + [] == many.value;
      } else {
        assert FlatMap([d.toMany], SideStep(h, klass)) == many;
      }
    }
  }

  /**
   * `authorize`: the first check is the action's query on the class (index,
   * create) or on the record (any other action), for the context's user; a
   * refusal there is the only check made; the call is allowed exactly when
   * that check passes, the related models are found and each passes
   * `update?`; without data only the first check is made.
   */
  lemma AuthorizeRules(h: Host, policies: Policies, o: Operation)
    ensures var g := Gate(Lookup(o.context, "user"), policies);
      var first := Check(PunditRecord(h, o), ActionQuery(o.context), Absent);
      var out := Authorize(h, policies, o);
      var related := RelatedModels(h, o.resourceKlass, o.data);
      && (ActionIn(o.context, {"index", "create"}) ==> first.subject == ModelClass(h.schema.modelClass(o.resourceKlass)))
      && (!ActionIn(o.context, {"index", "create"}) ==> first.subject == Instance(h.findByKey(o.resourceKlass, o.resourceId, o.context)))
      && |out.trace| >= 1 && out.trace[0] == first
      && (!g.Permits(first) ==> out == Outcome(Denied(first), [first]))
      && (out.verdict.Allowed? <==>
            g.Permits(first) && related.Success?
            && forall i :: 0 <= i < |related.value| ==> g.Permits(Check(Instance(related.value[i]), "update?", Absent)))
      && (o.data.None? ==> out == Outcome(if g.Permits(first) then Allowed else Denied(first), [first]))
      && FailsFast(out, g.Grants())
  {
    var g := UserGate(policies, o);
    var primary := g.Authorize(PunditRecord(h, o), ActionQuery(o.context));
    var related := RelatedModels(h, o.resourceKlass, o.data);
    AuthorizeFailsFast(g, PunditRecord(h, o), ActionQuery(o.context));
    if related.Success? {
      AuthorizeEachDecides(g, related.value, "update?");
      AuthorizeEachFailsFast(g, related.value, "update?");
      ThenFailsFast(primary, g.AuthorizeEach(related.value, "update?"), g.Grants());
    } else {
      ThenFailsFast(primary, Raise(related.fault), g.Grants());
    }
    if o.data.None? {
      ThenPassRight(primary);
    }
  }

  /**
   * `authorize` reads the context itself only for the user and the action,
   * and otherwise hands it to the host's `find_by_key`: two operations that
   * differ only in their contexts, where those agree on `user` and `action`
   * and the lookup of the operation's record finds the same record under
   * both, are authorized alike.
   */
  lemma AuthorizeReadsUserAndAction(h: Host, policies: Policies, o: Operation, other: Context)
    requires Lookup(o.context, "user") == Lookup(other, "user")
    requires Lookup(o.context, "action") == Lookup(other, "action")
    requires h.findByKey(o.resourceKlass, o.resourceId, o.context) == h.findByKey(o.resourceKlass, o.resourceId, other)
    ensures Authorize(h, policies, o) == Authorize(h, policies, o.(context := other))
  {
  }

  /**
   * Only find, create_resource and replace_fields are authorized: every
   * other operation makes no check at all, while each of those three first
   * checks the action's query on the primary subject, for the context's
   * user, and keeps the fail-fast discipline.
   */
  lemma LifecycleRules(h: Host, policies: Policies, op: OperationType, o: Operation)
    ensures var out := Lifecycle(h, policies, op, o);
      && (out.trace == [] <==> op == OtherOperation)
      && (op == OtherOperation ==> out.verdict.Allowed?)
      && (op != OtherOperation ==>
            && out.trace[0] == Check(PunditRecord(h, o), ActionQuery(o.context), Absent)
            && FailsFast(out, policies.permits(Lookup(o.context, "user"))))
  {
    AuthorizeRules(h, policies, o);
  }
}
