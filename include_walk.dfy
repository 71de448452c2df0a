/**
 * The `?include=` walk: `authorize_include_item`, `authorize_model_includes`
 * and `authorize_include_directive`, as both processors write them.
 *
 * A directive is a symbol naming a relationship, or a hash from relationship
 * names to lists of deeper directives.  The walk asks the authorizer one
 * include call per leaf it reaches; the authorizer's answer to a call is the
 * oracle `grants`.  The processor that owns the walk decides what a call
 * turns into (pundit checks, or calls on the older positional interface).
 */
module IncludeWalk {
  import opened Outcomes
  import opened Pundit

  /** A jsonapi-resources resource class, by name. */
  type ResourceKlass = string

  datatype Kind = ToOneKind | ToManyKind

  /** `resource_klass._relationship(name)`: its kind and the resource class it leads to. */
  datatype Relationship = Relationship(kind: Kind, resourceKlass: ResourceKlass)

  /**
   * The host lookups the walk relies on: the relationship table of each
   * resource class (`None`: no such relationship, or one of another kind),
   * each resource class's model class, and the association readers of the
   * record graph (a to-one reader answers a record or nil).
   */
  datatype Schema = Schema(
    relationship: (ResourceKlass, string) -> Option<Relationship>,
    modelClass: ResourceKlass -> string,
    toOne: (Record, string) -> Option<Record>,
    toMany: (Record, string) -> seq<Record>)

  /** One item of `include_directives.model_includes`. */
  datatype Directive =
    | Sym(name: string)                 // :comments
    | Hash(branches: seq<Branch>)       // {articles: [:comments, :author]}
    | Other                             // any other Ruby value
  datatype Branch = Branch(name: string, children: seq<Directive>)

  /** A call the walk makes on the authorizer. */
  datatype IncludeCall =
    | HasOne(source: Record, related: Record)         // include_has_one_resource
    | HasMany(source: Record, recordClass: string)    // include_has_many_resource

  // Sizes, for termination of the mutual recursion below.

  function Size(d: Directive): (n: nat)
    ensures n >= 1
    decreases d, 1
  {
    match d
    case Hash(bs) => 1 + BranchesSize(bs)
    case _ => 1
  }

  function BranchesSize(bs: seq<Branch>): nat
    decreases bs, 0
  {
    if bs == [] then 0 else 1 + ItemsSize(bs[0].children) + BranchesSize(bs[1..])
  }

  function ItemsSize(items: seq<Directive>): nat
    decreases items, 0
  {
    if items == [] then 0 else Size(items[0]) + ItemsSize(items[1..])
  }

  /** `Array.wrap(source.public_send(relation_name))`: the records a relationship leads to. */
  function Associated(s: Schema, source: Record, name: string, rel: Relationship): (rs: seq<Record>)
    ensures rel.kind == ToOneKind ==> |rs| <= 1 && forall r :: r in rs <==> s.toOne(source, name) == Some(r)
    ensures rel.kind == ToOneKind && s.toOne(source, name).None? ==> rs == []
    ensures rel.kind == ToManyKind ==> rs == s.toMany(source, name)
  {
    match rel.kind
    case ToOneKind => if s.toOne(source, name).Some? then [s.toOne(source, name).value] else []
    case ToManyKind => s.toMany(source, name)
  }

  /** The `when Symbol` case: one include call, none for a nil to-one record, a raise for an unknown relationship. */
  function Leaf(s: Schema, grants: IncludeCall -> bool, klass: ResourceKlass, source: Record, name: string): Outcome<IncludeCall>
  {
    match s.relationship(klass, name)
    case None => Raise(UnexpectedRelationship)
    case Some(rel) =>
      match rel.kind
      case ToOneKind =>
        if s.toOne(source, name).None? then Pass()
        else Ask(grants(HasOne(source, s.toOne(source, name).value)), HasOne(source, s.toOne(source, name).value))
      case ToManyKind =>
        Ask(grants(HasMany(source, s.modelClass(rel.resourceKlass))), HasMany(source, s.modelClass(rel.resourceKlass)))
  }

  /** `authorize_include_item(resource_klass, source_record, include_item)` */
  function Item(s: Schema, grants: IncludeCall -> bool, klass: ResourceKlass, source: Record, item: Directive): Outcome<IncludeCall>
    decreases Size(item), 0, 0
  {
    match item
    case Sym(name) => Leaf(s, grants, klass, source, name)
    case Hash(bs) => Branches(s, grants, klass, source, bs)
    case Other => Raise(UnknownIncludeDirective)
  }

  /** `include_item.each do |rel_name, deep| ... end` */
  function Branches(s: Schema, grants: IncludeCall -> bool, klass: ResourceKlass, source: Record, bs: seq<Branch>): Outcome<IncludeCall>
    decreases BranchesSize(bs), 1, 0
  {
    if bs == [] then Pass()
    else Then(OneBranch(s, grants, klass, source, bs[0]), Branches(s, grants, klass, source, bs[1..]))
  }

  /** One `rel_name => deep` pair: the relationship itself as a leaf, then `deep` on every record it leads to. */
  function OneBranch(s: Schema, grants: IncludeCall -> bool, klass: ResourceKlass, source: Record, b: Branch): Outcome<IncludeCall>
    decreases 1 + ItemsSize(b.children), 0, 0
  {
    Then(Leaf(s, grants, klass, source, b.name),
         match s.relationship(klass, b.name)
         case None => Raise(UnexpectedRelationship)
         case Some(rel) => Records(s, grants, rel.resourceKlass, Associated(s, source, b.name, rel), b.children))
  }

  /** `Array.wrap(...).each do |next_source_record| deep.each ... end` */
  function Records(s: Schema, grants: IncludeCall -> bool, klass: ResourceKlass, records: seq<Record>, items: seq<Directive>): Outcome<IncludeCall>
    decreases ItemsSize(items), 2, |records|
  {
    if records == [] then Pass()
    else Then(Items(s, grants, klass, records[0], items), Records(s, grants, klass, records[1..], items))
  }

  /** `deep.each { |next_include_item| authorize_include_item(...) }`, and likewise `model_includes.each`. */
  function Items(s: Schema, grants: IncludeCall -> bool, klass: ResourceKlass, source: Record, items: seq<Directive>): Outcome<IncludeCall>
    decreases ItemsSize(items), 1, 0
  {
    if items == [] then Pass()
    else Then(Item(s, grants, klass, source, items[0]), Items(s, grants, klass, source, items[1..]))
  }

  /** `authorize_model_includes(source_record)`: nothing without include directives. */
  function ModelIncludes(s: Schema, grants: IncludeCall -> bool, klass: ResourceKlass, directives: Option<seq<Directive>>, source: Record): Outcome<IncludeCall>
  {
    if directives.None? then Pass() else Items(s, grants, klass, source, directives.value)
  }

  /** What an operation produced: an errors result, or the resources it returns (`Array.wrap` of `resources` or `resource`). */
  datatype OperationResult = ErrorsResult | Resources(models: seq<Record>)

  /** `authorize_include_directive`: skipped after an errors result, otherwise run for every resource returned. */
  function IncludeDirective(s: Schema, grants: IncludeCall -> bool, klass: ResourceKlass, directives: Option<seq<Directive>>, result: OperationResult): Outcome<IncludeCall>
  {
    match result
    case ErrorsResult => Pass()
    case Resources(models) => EachResource(s, grants, klass, directives, models)
  }

  function EachResource(s: Schema, grants: IncludeCall -> bool, klass: ResourceKlass, directives: Option<seq<Directive>>, models: seq<Record>): Outcome<IncludeCall>
    decreases |models|
  {
    if models == [] then Pass()
    else Then(ModelIncludes(s, grants, klass, directives, models[0]), EachResource(s, grants, klass, directives, models[1..]))
  }

  /** The `resources.each` loop of `authorize_include_directive`, as written. */
  method IncludeDirectiveInOrder(s: Schema, grants: IncludeCall -> bool, klass: ResourceKlass, directives: Option<seq<Directive>>, result: OperationResult)
    returns (o: Outcome<IncludeCall>)
    ensures o == IncludeDirective(s, grants, klass, directives, result)
  {
    if result.ErrorsResult? {
      return Pass();
    }
    var models := result.models;
    o := Pass();
    var i := 0;
    while i < |models|
      invariant 0 <= i <= |models|
      invariant o.verdict.Allowed?
      invariant EachResource(s, grants, klass, directives, models) == Then(o, EachResource(s, grants, klass, directives, models[i..]))
    {
      assert models[i..][1..] == models[i + 1..];
      var step := ModelIncludes(s, grants, klass, directives, models[i]);
      ThenAssociative(o, step, EachResource(s, grants, klass, directives, models[i + 1..]));
      o := Then(o, step);
      if !o.verdict.Allowed? {
        return;
      }
      i := i + 1;
    }
    ThenPassRight(o);
  }

  // ---------------------------------------------------------------------
  // Properties
  // ---------------------------------------------------------------------

  /**
   * A leaf: a to-one relationship asks `include_has_one_resource` with the
   * related record, or nothing when it is nil; a to-many relationship asks
   * `include_has_many_resource` with the target model class whatever records
   * the association holds; any other relationship raises.
   */
  lemma LeafRules(s: Schema, grants: IncludeCall -> bool, klass: ResourceKlass, source: Record, name: string)
    ensures s.relationship(klass, name).None? ==> Leaf(s, grants, klass, source, name) == Raise(UnexpectedRelationship)
    ensures s.relationship(klass, name).Some? && s.relationship(klass, name).value.kind == ToOneKind ==>
      if s.toOne(source, name).None? then Leaf(s, grants, klass, source, name) == Pass()
      else Leaf(s, grants, klass, source, name).trace == [HasOne(source, s.toOne(source, name).value)]
    ensures s.relationship(klass, name).Some? && s.relationship(klass, name).value.kind == ToManyKind ==>
      Leaf(s, grants, klass, source, name).trace == [HasMany(source, s.modelClass(s.relationship(klass, name).value.resourceKlass))]
    ensures forall c :: c in Leaf(s, grants, klass, source, name).trace ==> c.source == source
  {
  }

  /**
   * Item kinds: a symbol is a leaf; a hash walks its branches in order, each
   * only after the ones before it passed, and an empty hash passes; anything
   * else raises before any call.
   */
  lemma ItemRules(s: Schema, grants: IncludeCall -> bool, klass: ResourceKlass, source: Record, name: string, bs: seq<Branch>)
    ensures Item(s, grants, klass, source, Sym(name)) == Leaf(s, grants, klass, source, name)
    ensures Item(s, grants, klass, source, Hash(bs)) == Branches(s, grants, klass, source, bs)
    ensures bs != [] ==>
      Item(s, grants, klass, source, Hash(bs))
        == Then(OneBranch(s, grants, klass, source, bs[0]), Item(s, grants, klass, source, Hash(bs[1..])))
    ensures Item(s, grants, klass, source, Hash([])) == Pass()
    ensures Item(s, grants, klass, source, Other) == Raise(UnknownIncludeDirective)
    ensures Items(s, grants, klass, source, []) == Pass()
  {
  }

  /**
   * A branch is walked in pre-order: the relationship is authorized as a leaf
   * first, and when that does not pass, nothing below it is looked at.
   */
  lemma BranchPreOrder(s: Schema, grants: IncludeCall -> bool, klass: ResourceKlass, source: Record, b: Branch)
    ensures var self := Leaf(s, grants, klass, source, b.name);
      var o := OneBranch(s, grants, klass, source, b);
      && o.trace[..|self.trace|] == self.trace
      && (!self.verdict.Allowed? ==> o == self)
  {
    var self := Leaf(s, grants, klass, source, b.name);
    var o := OneBranch(s, grants, klass, source, b);
    if self.verdict.Allowed? {
      assert o.trace == self.trace + o.trace[|self.trace|..];
    }
  }

  /**
   * A to-one branch whose record is present walks the children on that
   * record with the relationship's resource class; a nil one ends the branch
   * successfully with no call at all.
   */
  lemma ToOneBranch(s: Schema, grants: IncludeCall -> bool, klass: ResourceKlass, source: Record, b: Branch, rel: Relationship)
    requires s.relationship(klass, b.name) == Some(rel) && rel.kind == ToOneKind
    ensures s.toOne(source, b.name).None? ==> OneBranch(s, grants, klass, source, b) == Pass()
    ensures s.toOne(source, b.name).Some? ==>
      var r := s.toOne(source, b.name).value;
      OneBranch(s, grants, klass, source, b)
        == Then(Ask(grants(HasOne(source, r)), HasOne(source, r)), Items(s, grants, rel.resourceKlass, r, b.children))
  {
    var rs := Associated(s, source, b.name, rel);
    if s.toOne(source, b.name).Some? {
      var r := s.toOne(source, b.name).value;
      assert rs == [r] && rs[1..] == [];
      ThenPassRight(Items(s, grants, rel.resourceKlass, r, b.children));
      assert Records(s, grants, rel.resourceKlass, rs, b.children) == Items(s, grants, rel.resourceKlass, r, b.children);
    }
  }

  /**
   * A to-many branch asks the class-level call once, then walks the children
   * on every associated record in order; an empty association leaves the
   * class-level call alone.
   */
  lemma ToManyBranch(s: Schema, grants: IncludeCall -> bool, klass: ResourceKlass, source: Record, b: Branch, rel: Relationship)
    requires s.relationship(klass, b.name) == Some(rel) && rel.kind == ToManyKind
    ensures var call := HasMany(source, s.modelClass(rel.resourceKlass));
      OneBranch(s, grants, klass, source, b)
        == Then(Ask(grants(call), call), Records(s, grants, rel.resourceKlass, s.toMany(source, b.name), b.children))
    ensures s.toMany(source, b.name) == [] ==>
      OneBranch(s, grants, klass, source, b) == Leaf(s, grants, klass, source, b.name)
  {
    ThenPassRight(Leaf(s, grants, klass, source, b.name));
  }

  lemma LeafFailsFast(s: Schema, grants: IncludeCall -> bool, klass: ResourceKlass, source: Record, name: string)
    ensures FailsFast(Leaf(s, grants, klass, source, name), grants)
  {
  }

  /** The walk keeps the fail-fast discipline: a denial anywhere is the last call made. */
  lemma {:induction false} ItemFailsFast(s: Schema, grants: IncludeCall -> bool, klass: ResourceKlass, source: Record, item: Directive)
    ensures FailsFast(Item(s, grants, klass, source, item), grants)
    decreases Size(item), 0, 0
  {
    match item
    case Sym(name) => LeafFailsFast(s, grants, klass, source, name);
    case Hash(bs) => BranchesFailsFast(s, grants, klass, source, bs);
    case Other =>
  }

  lemma {:induction false} BranchesFailsFast(s: Schema, grants: IncludeCall -> bool, klass: ResourceKlass, source: Record, bs: seq<Branch>)
    ensures FailsFast(Branches(s, grants, klass, source, bs), grants)
    decreases BranchesSize(bs), 1, 0
  {
    if bs != [] {
      OneBranchFailsFast(s, grants, klass, source, bs[0]);
      BranchesFailsFast(s, grants, klass, source, bs[1..]);
      ThenFailsFast(OneBranch(s, grants, klass, source, bs[0]), Branches(s, grants, klass, source, bs[1..]), grants);
    }
  }

  lemma {:induction false} OneBranchFailsFast(s: Schema, grants: IncludeCall -> bool, klass: ResourceKlass, source: Record, b: Branch)
    ensures FailsFast(OneBranch(s, grants, klass, source, b), grants)
    decreases 1 + ItemsSize(b.children), 0, 0
  {
    LeafFailsFast(s, grants, klass, source, b.name);
    match s.relationship(klass, b.name)
    case None =>
    case Some(rel) =>
      var rs := Associated(s, source, b.name, rel);
      RecordsFailsFast(s, grants, rel.resourceKlass, rs, b.children);
      ThenFailsFast(Leaf(s, grants, klass, source, b.name), Records(s, grants, rel.resourceKlass, rs, b.children), grants);
  }

  lemma {:induction false} RecordsFailsFast(s: Schema, grants: IncludeCall -> bool, klass: ResourceKlass, records: seq<Record>, items: seq<Directive>)
    ensures FailsFast(Records(s, grants, klass, records, items), grants)
    decreases ItemsSize(items), 2, |records|
  {
    if records != [] {
      ItemsFailsFast(s, grants, klass, records[0], items);
      RecordsFailsFast(s, grants, klass, records[1..], items);
      ThenFailsFast(Items(s, grants, klass, records[0], items), Records(s, grants, klass, records[1..], items), grants);
    }
  }

  lemma {:induction false} ItemsFailsFast(s: Schema, grants: IncludeCall -> bool, klass: ResourceKlass, source: Record, items: seq<Directive>)
    ensures FailsFast(Items(s, grants, klass, source, items), grants)
    decreases ItemsSize(items), 1, 0
  {
    if items != [] {
      ItemFailsFast(s, grants, klass, source, items[0]);
      ItemsFailsFast(s, grants, klass, source, items[1..]);
      ThenFailsFast(Item(s, grants, klass, source, items[0]), Items(s, grants, klass, source, items[1..]), grants);
    }
  }

  lemma {:induction false} EachResourceFailsFast(s: Schema, grants: IncludeCall -> bool, klass: ResourceKlass, directives: Option<seq<Directive>>, models: seq<Record>)
    ensures FailsFast(EachResource(s, grants, klass, directives, models), grants)
    decreases |models|
  {
    if models != [] {
      if directives.Some? {
        ItemsFailsFast(s, grants, klass, models[0], directives.value);
      }
      EachResourceFailsFast(s, grants, klass, directives, models[1..]);
      ThenFailsFast(ModelIncludes(s, grants, klass, directives, models[0]), EachResource(s, grants, klass, directives, models[1..]), grants);
    }
  }

  /**
   * `authorize_include_directive`: nothing after an errors result or without
   * include directives; otherwise every returned resource is walked, and a
   * denial is the last call made.  When the authorizer grants every call, the
   * walk is never denied.
   */
  lemma IncludeDirectiveRules(s: Schema, grants: IncludeCall -> bool, klass: ResourceKlass, directives: Option<seq<Directive>>, result: OperationResult)
    ensures IncludeDirective(s, grants, klass, directives, ErrorsResult) == Pass()
    ensures directives.None? ==> IncludeDirective(s, grants, klass, directives, result) == Pass()
    ensures FailsFast(IncludeDirective(s, grants, klass, directives, result), grants)
    ensures (forall c :: grants(c)) ==> !IncludeDirective(s, grants, klass, directives, result).verdict.Denied?
  {
    if result.Resources? {
      EachResourceFailsFast(s, grants, klass, directives, result.models);
      if directives.None? {
        EachResourceWithoutDirectives(s, grants, klass, result.models);
      }
    }
  }

  lemma {:induction false} EachResourceWithoutDirectives(s: Schema, grants: IncludeCall -> bool, klass: ResourceKlass, models: seq<Record>)
    ensures EachResource(s, grants, klass, None, models) == Pass()
    decreases |models|
  {
    if models != [] {
      EachResourceWithoutDirectives(s, grants, klass, models[1..]);
    }
  }

  /**
   * A two-level tree `{a => [:b]}` where the to-many `a` passes and `b` is
   * refused on the first record: the walk is denied by that call, after
   * asking `a` exactly once and before looking at the second record.
   */
  lemma TwoLevelDenial(s: Schema, grants: IncludeCall -> bool, klass: ResourceKlass, source: Record,
                       a: string, b: string, rel: Relationship, r1: Record, r2: Record, x1: Record)
    requires s.relationship(klass, a) == Some(rel) && rel.kind == ToManyKind
    requires s.toMany(source, a) == [r1, r2]
    requires s.relationship(rel.resourceKlass, b).Some? && s.relationship(rel.resourceKlass, b).value.kind == ToOneKind
    requires s.toOne(r1, b) == Some(x1)
    requires grants(HasMany(source, s.modelClass(rel.resourceKlass)))
    requires !grants(HasOne(r1, x1))
    ensures Item(s, grants, klass, source, Hash([Branch(a, [Sym(b)])]))
      == Outcome(Denied(HasOne(r1, x1)), [HasMany(source, s.modelClass(rel.resourceKlass)), HasOne(r1, x1)])
  {
    var first := HasMany(source, s.modelClass(rel.resourceKlass));
    var second := HasOne(r1, x1);
    var br := Branch(a, [Sym(b)]);
    assert [br][1..] == [];
    assert [Sym(b)][1..] == [];
    assert Items(s, grants, rel.resourceKlass, r1, [Sym(b)]) == Outcome(Denied(second), [second]);
    assert Records(s, grants, rel.resourceKlass, [r1, r2], [Sym(b)]) == Outcome(Denied(second), [second]);
    ToManyBranch(s, grants, klass, source, br, rel);
    assert OneBranch(s, grants, klass, source, br) == Outcome(Denied(second), [first, second]);
  }
}
