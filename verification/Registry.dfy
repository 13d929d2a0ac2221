/** The CVM registry snapshot: which entities a CNPJ stands for. */
module Registry {
  import opened Base

  datatype Fund = Fund(registryId: string, cnpj: string, legalName: string, situation: string, family: string)

  datatype Class = Class(registryId: string, fundRegistryId: string, cnpj: string, legalName: string,
                         situation: string, family: string)

  datatype Kind = OfFund | OfClass

  datatype Entity = Entity(cnpj: string, legalName: string, situation: string, kind: Kind, types: seq<int>)

  /** Case and space folding of a situation; dead wordings are a denylist. */
  predicate Active(fold: string -> string, situation: string) {
    fold(situation) != "cancelado" && fold(situation) != "liquidado"
  }

  /** The fund types worth trying for a family, best guess first. */
  function TypesOf(family: string): seq<int> {
    if family == "FII" then [1] else if family == "FIAGRO" then [11, 1] else []
  }

  function Appended(types: seq<int>, more: seq<int>): seq<int>
    decreases |more|
  {
    if more == [] then types
    else Appended(if more[0] in types then types else types + [more[0]], more[1..])
  }

  /** The union of the candidate types of every family, in order, without repeats. */
  function MergedTypes(families: seq<string>): seq<int> {
    if families == [] then [] else Appended(MergedTypes(families[..|families| - 1]), TypesOf(families[|families| - 1]))
  }

  ghost predicate NoRepeats(types: seq<int>) {
    forall i, j :: 0 <= i < j < |types| ==> types[i] != types[j]
  }

  lemma {:induction false} AppendedMeaning(types: seq<int>, more: seq<int>)
    requires NoRepeats(types)
    ensures NoRepeats(Appended(types, more)) && types <= Appended(types, more)
    ensures forall t :: t in Appended(types, more) <==> t in types || t in more
    decreases |more|
  {
    if more != [] {
      var next := if more[0] in types then types else types + [more[0]];
      AppendedMeaning(next, more[1..]);
      assert forall t :: t in more <==> t == more[0] || t in more[1..];
    }
  }

  /** Candidate types: duplicate-free, exactly the union, the first family's best guess first. */
  lemma {:induction false} MergedTypesMeaning(families: seq<string>)
    ensures NoRepeats(MergedTypes(families))
    ensures forall t :: t in MergedTypes(families) <==> exists k :: 0 <= k < |families| && t in TypesOf(families[k])
    ensures |families| > 0 ==> TypesOf(families[0]) <= MergedTypes(families)
  {
    if families != [] {
      var init, last := families[..|families| - 1], families[|families| - 1];
      MergedTypesMeaning(init);
      AppendedMeaning(MergedTypes(init), TypesOf(last));
      forall t ensures t in MergedTypes(families) <==> exists k :: 0 <= k < |families| && t in TypesOf(families[k]) {
        if t in MergedTypes(init) {
          var k :| 0 <= k < |init| && t in TypesOf(init[k]);
          assert t in TypesOf(families[k]);
        }
        if t in TypesOf(last) {
          assert t in TypesOf(families[|families| - 1]);
        }
        if k :| 0 <= k < |families| && t in TypesOf(families[k]) {
          assert k == |init| || (t in TypesOf(init[k]) && k < |init|);
        }
      }
      if init == [] {
        AppendedToNothing(TypesOf(last));
      }
    }
  }

  lemma AppendedToNothing(more: seq<int>)
    requires |more| <= 2 && NoRepeats(more)
    ensures Appended([], more) == more
  {
    if |more| == 2 {
      var rest := more[1..];
      assert rest == [more[1]] && rest[1..] == [];
      assert Appended([], more) == Appended([] + [more[0]], rest);
      assert Appended([more[0]], rest) == Appended([more[0]] + [more[1]], rest[1..]);
      assert [more[0]] + [more[1]] == more && [] + [more[0]] == [more[0]];
    } else if |more| == 1 {
      assert more[1..] == [];
    }
  }

  // ------------------------------------------------------------------ the index

  /** A class group: what counts as one class across registrations. */
  datatype Group = Group(cnpj: string, legalName: string)

  function GroupOf(c: Class): Group { Group(c.cnpj, c.legalName) }

  /** The classes registered under any of the fund's registrations. */
  ghost predicate UnderFund(funds: seq<Fund>, cnpj: string, c: Class) {
    exists f :: f in funds && f.cnpj == cnpj && f.registryId == c.fundRegistryId
  }

  /** `groups` holds, by group and in order, exactly the class rows reached so far. */
  ghost predicate Collected(seen: seq<Class>, order: seq<Group>, groups: map<Group, seq<Class>>) {
    && (forall i, j :: 0 <= i < j < |order| ==> order[i] != order[j])
    && (forall g :: g in groups <==> g in order)
    && (forall g :: g in groups ==> groups[g] != [] && forall c :: c in groups[g] <==> c in seen && GroupOf(c) == g)
    && (forall c :: c in seen ==> GroupOf(c) in groups)
  }

  method Collect(seen: seq<Class>) returns (order: seq<Group>, groups: map<Group, seq<Class>>)
    ensures Collected(seen, order, groups)
  {
    order, groups := [], map[];
    for k := 0 to |seen|
      invariant Collected(seen[..k], order, groups)
    {
      assert seen[..k + 1] == seen[..k] + [seen[k]];
      var g := GroupOf(seen[k]);
      if g !in groups {
        order := order + [g];
        groups := groups[g := [seen[k]]];
      } else {
        groups := groups[g := groups[g] + [seen[k]]];
      }
    }
    assert seen[..|seen|] == seen;
  }

  /** The rows of one column, in file order. */
  method FundsOf(funds: seq<Fund>, cnpj: string) returns (rows: seq<Fund>)
    ensures forall f :: f in rows <==> f in funds && f.cnpj == cnpj
  {
    rows := [];
    for k := 0 to |funds|
      invariant forall f :: f in rows <==> f in funds[..k] && f.cnpj == cnpj
    {
      assert funds[..k + 1] == funds[..k] + [funds[k]];
      if funds[k].cnpj == cnpj {
        rows := rows + [funds[k]];
      }
    }
    assert funds[..|funds|] == funds;
  }

  method ClassesOf(classes: seq<Class>, cnpj: string) returns (rows: seq<Class>)
    ensures forall c :: c in rows <==> c in classes && c.cnpj == cnpj
  {
    rows := [];
    for k := 0 to |classes|
      invariant forall c :: c in rows <==> c in classes[..k] && c.cnpj == cnpj
    {
      assert classes[..k + 1] == classes[..k] + [classes[k]];
      if classes[k].cnpj == cnpj {
        rows := rows + [classes[k]];
      }
    }
    assert classes[..|classes|] == classes;
  }

  /** Every class row under one of the registrations, registration by registration. */
  method Siblings(registrations: seq<Fund>, classes: seq<Class>) returns (siblings: seq<Class>)
    ensures forall c :: c in siblings <==>
        c in classes && exists f :: f in registrations && f.registryId == c.fundRegistryId
  {
    siblings := [];
    for i := 0 to |registrations|
      invariant forall c :: c in siblings <==>
          c in classes && exists f :: f in registrations[..i] && f.registryId == c.fundRegistryId
    {
      assert registrations[..i + 1] == registrations[..i] + [registrations[i]];
      var mine := RegisteredUnder(classes, registrations[i].registryId);
      siblings := siblings + mine;
    }
    assert registrations[..|registrations|] == registrations;
  }

  method RegisteredUnder(classes: seq<Class>, registryId: string) returns (rows: seq<Class>)
    ensures forall c :: c in rows <==> c in classes && c.fundRegistryId == registryId
  {
    rows := [];
    for k := 0 to |classes|
      invariant forall c :: c in rows <==> c in classes[..k] && c.fundRegistryId == registryId
    {
      assert classes[..k + 1] == classes[..k] + [classes[k]];
      if classes[k].fundRegistryId == registryId {
        rows := rows + [classes[k]];
      }
    }
    assert classes[..|classes|] == classes;
  }

  // ------------------------------------------------------------------- entities

  /** The first active row, or the first row. */
  function PrimaryClass(fold: string -> string, rows: seq<Class>): (p: Class)
    requires rows != []
    ensures p in rows
    ensures Active(fold, p.situation) <==> exists r :: r in rows && Active(fold, r.situation)
  {
    if Active(fold, rows[0].situation) then rows[0]
    else if |rows| > 1 && Active(fold, PrimaryClass(fold, rows[1..]).situation) then PrimaryClass(fold, rows[1..])
    else
      assert forall r :: r in rows ==> r == rows[0] || r in rows[1..];
      rows[0]
  }

  function PrimaryFund(fold: string -> string, rows: seq<Fund>): (p: Fund)
    requires rows != []
    ensures p in rows
    ensures Active(fold, p.situation) <==> exists r :: r in rows && Active(fold, r.situation)
  {
    if Active(fold, rows[0].situation) then rows[0]
    else if |rows| > 1 && Active(fold, PrimaryFund(fold, rows[1..]).situation) then PrimaryFund(fold, rows[1..])
    else
      assert forall r :: r in rows ==> r == rows[0] || r in rows[1..];
      rows[0]
  }

  function ClassFamilies(rows: seq<Class>): seq<string> { seq(|rows|, i requires 0 <= i < |rows| => rows[i].family) }

  function FundFamilies(rows: seq<Fund>): seq<string> { seq(|rows|, i requires 0 <= i < |rows| => rows[i].family) }

  function ClassEntity(fold: string -> string, rows: seq<Class>): Entity
    requires rows != []
  {
    var p := PrimaryClass(fold, rows);
    Entity(p.cnpj, p.legalName, p.situation, OfClass, MergedTypes(ClassFamilies(rows)))
  }

  function FundEntity(fold: string -> string, rows: seq<Fund>): Entity
    requires rows != []
  {
    var p := PrimaryFund(fold, rows);
    Entity(p.cnpj, p.legalName, p.situation, OfFund, MergedTypes(FundFamilies(rows)))
  }

  predicate HasActive(fold: string -> string, rows: seq<Class>) {
    exists c :: c in rows && Active(fold, c.situation)
  }

  /** The class groups with an active row, in first-seen order. */
  method ActiveGroups(fold: string -> string, order: seq<Group>, groups: map<Group, seq<Class>>)
    returns (keys: seq<Group>, entities: seq<Entity>)
    requires forall g :: g in groups <==> g in order
    requires forall g :: g in groups ==> groups[g] != []
    requires forall i, j :: 0 <= i < j < |order| ==> order[i] != order[j]
    ensures |keys| == |entities|
    ensures forall i, j :: 0 <= i < j < |keys| ==> keys[i] != keys[j]
    ensures forall g :: g in keys <==> g in groups && HasActive(fold, groups[g])
    ensures forall i :: 0 <= i < |keys| ==> keys[i] in groups && entities[i] == ClassEntity(fold, groups[keys[i]])
  {
    hide PrimaryClass, MergedTypes, Active, HasActive;
    keys, entities := [], [];
    for k := 0 to |order|
      invariant |keys| == |entities|
      invariant forall i, j :: 0 <= i < j < |keys| ==> keys[i] != keys[j]
      invariant forall g :: g in keys <==> g in order[..k] && g in groups && HasActive(fold, groups[g])
      invariant forall i :: 0 <= i < |keys| ==> keys[i] in groups && entities[i] == ClassEntity(fold, groups[keys[i]])
    {
      assert order[..k + 1] == order[..k] + [order[k]];
      var e := ClassEntity(fold, groups[order[k]]);
      ActiveWhenSome(fold, groups[order[k]]);
      if Active(fold, e.situation) {
        keys, entities := keys + [order[k]], entities + [e];
      }
    }
    assert order[..|order|] == order;
  }

  /** An entity is active exactly when one of its rows is, and it is named by its group. */
  lemma ActiveWhenSome(fold: string -> string, rows: seq<Class>)
    requires rows != []
    ensures Active(fold, ClassEntity(fold, rows).situation) <==> HasActive(fold, rows)
    ensures exists c ::
        c in rows && GroupOf(c) == Group(ClassEntity(fold, rows).cnpj, ClassEntity(fold, rows).legalName)
  {
    hide MergedTypes, Active;
    assert PrimaryClass(fold, rows) in rows;
  }

  // ------------------------------------------------------------------ expansion

  /** A class row any registration of `cnpj` reaches, belonging to group `g`. */
  ghost predicate Reaches(funds: seq<Fund>, classes: seq<Class>, cnpj: string, g: Group, c: Class) {
    c in classes && UnderFund(funds, cnpj, c) && GroupOf(c) == g
  }

  /** Some class row of group `g`, reachable from the fund, is active. */
  ghost predicate Wanted(fold: string -> string, funds: seq<Fund>, classes: seq<Class>, cnpj: string, g: Group) {
    exists c :: Reaches(funds, classes, cnpj, g, c) && Active(fold, c.situation)
  }

  /** What one emitted class entity is, in terms of the raw rows. */
  ghost predicate Represents(fold: string -> string, funds: seq<Fund>, classes: seq<Class>, cnpj: string, g: Group,
                             e: Entity) {
    && e.kind == OfClass && Group(e.cnpj, e.legalName) == g && Active(fold, e.situation)
    && NoRepeats(e.types)
    && (forall t :: t in e.types <==> exists c :: Reaches(funds, classes, cnpj, g, c) && t in TypesOf(c.family))
  }

  lemma EntityOfGroup(fold: string -> string, funds: seq<Fund>, classes: seq<Class>, cnpj: string, g: Group,
                      rows: seq<Class>)
    requires rows != [] && HasActive(fold, rows)
    requires forall c :: c in rows <==> Reaches(funds, classes, cnpj, g, c)
    requires forall c :: c in rows ==> GroupOf(c) == g
    ensures Represents(fold, funds, classes, cnpj, g, ClassEntity(fold, rows))
  {
    hide Active, Reaches, MergedTypes, TypesOf;
    ActiveWhenSome(fold, rows);
    var families := ClassFamilies(rows);
    MergedTypesMeaning(families);
    forall t
      ensures t in MergedTypes(families) <==> exists c :: Reaches(funds, classes, cnpj, g, c) && t in TypesOf(c.family)
    {
      if t in MergedTypes(families) {
        var k :| 0 <= k < |families| && t in TypesOf(families[k]);
        assert rows[k] in rows && Reaches(funds, classes, cnpj, g, rows[k]);
      }
      if c :| Reaches(funds, classes, cnpj, g, c) && t in TypesOf(c.family) {
        assert c in rows;
        var k :| 0 <= k < |rows| && rows[k] == c;
        assert families[k] == c.family;
      }
    }
  }

  /** The candidate types of the fund's own entity: the union over its registrations. */
  ghost predicate FundTypes(funds: seq<Fund>, cnpj: string, types: seq<int>) {
    NoRepeats(types) && forall t :: t in types <==> exists f :: f in funds && f.cnpj == cnpj && t in TypesOf(f.family)
  }

  /** The fund's own entity. */
  ghost predicate IsAnchor(fold: string -> string, funds: seq<Fund>, cnpj: string, anchor: Entity) {
    && anchor.kind == OfFund && anchor.cnpj == cnpj && FundTypes(funds, cnpj, anchor.types)
    && (Active(fold, anchor.situation) <==> exists f :: f in funds && f.cnpj == cnpj && Active(fold, f.situation))
  }

  /**
   The expansion of a fund equals a naive scan of the raw rows: a class group is
   emitted exactly once, if and only if one of its reachable rows is active, with the
   union of its rows' candidate types; and the fund itself leads the list exactly when
   no emitted class shares its CNPJ.
   */
  ghost predicate Expanded(fold: string -> string, funds: seq<Fund>, classes: seq<Class>, cnpj: string,
                           anchor: Entity, entities: seq<Entity>, keys: seq<Group>, led: bool) {
    && IsAnchor(fold, funds, cnpj, anchor)
    && |entities| == |keys| + (if led then 1 else 0) && (led ==> entities[0] == anchor)
    && (forall i, j :: 0 <= i < j < |keys| ==> keys[i] != keys[j])
    && (forall g :: g in keys <==> Wanted(fold, funds, classes, cnpj, g))
    && (forall i :: 0 <= i < |keys|
         ==> Represents(fold, funds, classes, cnpj, keys[i], entities[i + if led then 1 else 0]))
    && (led <==> forall g :: g in keys ==> g.cnpj != cnpj)
  }

  method ExpandFund(fold: string -> string, funds: seq<Fund>, classes: seq<Class>, cnpj: string)
    returns (anchor: Entity, entities: seq<Entity>, keys: seq<Group>, led: bool)
    requires exists f :: f in funds && f.cnpj == cnpj
    ensures Expanded(fold, funds, classes, cnpj, anchor, entities, keys, led)
  {
    hide Active, Reaches, Represents, IsAnchor, PrimaryFund, MergedTypes, ClassEntity, Wanted, Headed;
    var registrations := FundsOf(funds, cnpj);
    assert registrations != [] by {
      var f :| f in funds && f.cnpj == cnpj;
      assert f in registrations;
    }
    anchor := FundEntity(fold, registrations);
    AnchorOfRegistrations(fold, funds, cnpj, registrations);
    var members;
    keys, members := Members(fold, funds, classes, cnpj, registrations);
    led := forall g :: g in keys ==> g.cnpj != cnpj;
    entities := Headed(led, anchor, members);
  }

  function Headed(led: bool, anchor: Entity, members: seq<Entity>): (entities: seq<Entity>)
    ensures |entities| == |members| + (if led then 1 else 0) && (led ==> entities[0] == anchor)
    ensures forall i :: 0 <= i < |members| ==> entities[i + if led then 1 else 0] == members[i]
  {
    if led then [anchor] + members else members
  }

  /** The class entities under any of the fund's registrations. */
  method Members(fold: string -> string, ghost funds: seq<Fund>, classes: seq<Class>, ghost cnpj: string,
                 registrations: seq<Fund>)
    returns (keys: seq<Group>, members: seq<Entity>)
    requires forall f :: f in registrations <==> f in funds && f.cnpj == cnpj
    ensures |members| == |keys|
    ensures forall i, j :: 0 <= i < j < |keys| ==> keys[i] != keys[j]
    ensures forall g :: g in keys <==> Wanted(fold, funds, classes, cnpj, g)
    ensures forall i :: 0 <= i < |keys| ==> Represents(fold, funds, classes, cnpj, keys[i], members[i])
  {
    hide Active, Reaches, Represents, MergedTypes, Collected, HasActive, ClassEntity, Wanted;
    var reached := Siblings(registrations, classes);
    var order, groups := Collect(reached);
    GroupsReach(funds, classes, cnpj, registrations, reached, order, groups);
    keys, members := ActiveGroups(fold, order, groups);
    forall i | 0 <= i < |keys| ensures Represents(fold, funds, classes, cnpj, keys[i], members[i]) {
      assert keys[i] in keys;
      EntityOfGroup(fold, funds, classes, cnpj, keys[i], groups[keys[i]]);
    }
    forall g ensures g in keys <==> Wanted(fold, funds, classes, cnpj, g) {
      GroupActive(fold, funds, classes, cnpj, groups, g);
    }
  }

  lemma GroupsReach(funds: seq<Fund>, classes: seq<Class>, cnpj: string, registrations: seq<Fund>, reached: seq<Class>,
                    order: seq<Group>, groups: map<Group, seq<Class>>)
    requires forall f :: f in registrations <==> f in funds && f.cnpj == cnpj
    requires forall c :: c in reached <==>
        c in classes && exists f :: f in registrations && f.registryId == c.fundRegistryId
    requires Collected(reached, order, groups)
    ensures forall g :: g in groups <==> g in order
    ensures forall i, j :: 0 <= i < j < |order| ==> order[i] != order[j]
    ensures forall g :: g in groups ==>
              groups[g] != [] && forall c :: c in groups[g] <==> Reaches(funds, classes, cnpj, g, c)
    ensures forall g :: g in groups ==> forall c :: c in groups[g] ==> GroupOf(c) == g
    ensures forall g, c :: Reaches(funds, classes, cnpj, g, c) ==> g in groups
  {
    forall c ensures c in reached <==> c in classes && UnderFund(funds, cnpj, c) {
      if c in classes && UnderFund(funds, cnpj, c) {
        var f :| f in funds && f.cnpj == cnpj && f.registryId == c.fundRegistryId;
        assert f in registrations;
      }
      if c in reached {
        var f :| f in registrations && f.registryId == c.fundRegistryId;
        assert f in funds;
      }
    }
  }

  lemma GroupActive(fold: string -> string, funds: seq<Fund>, classes: seq<Class>, cnpj: string,
                    groups: map<Group, seq<Class>>, g: Group)
    requires forall g :: g in groups ==> forall c :: c in groups[g] <==> Reaches(funds, classes, cnpj, g, c)
    requires forall g, c :: Reaches(funds, classes, cnpj, g, c) ==> g in groups
    ensures g in groups && HasActive(fold, groups[g]) <==> Wanted(fold, funds, classes, cnpj, g)
  {
    hide Active, Reaches;
  }

  lemma AnchorOfRegistrations(fold: string -> string, funds: seq<Fund>, cnpj: string, registrations: seq<Fund>)
    requires registrations != [] && forall f :: f in registrations <==> f in funds && f.cnpj == cnpj
    ensures IsAnchor(fold, funds, cnpj, FundEntity(fold, registrations))
  {
    hide Active, MergedTypes, TypesOf;
    assert PrimaryFund(fold, registrations) in registrations;
    var families := FundFamilies(registrations);
    MergedTypesMeaning(families);
    forall t
      ensures t in MergedTypes(families) <==> exists f :: f in funds && f.cnpj == cnpj && t in TypesOf(f.family)
    {
      if t in MergedTypes(families) {
        var k :| 0 <= k < |families| && t in TypesOf(families[k]);
        assert registrations[k] in registrations;
      }
      if f :| f in funds && f.cnpj == cnpj && t in TypesOf(f.family) {
        var k :| 0 <= k < |registrations| && registrations[k] == f;
        assert families[k] == f.family;
      }
    }
  }

  /** What a CNPJ that is only a class stands for: one entity over all its rows, dead or alive. */
  ghost predicate IsLoneClass(fold: string -> string, classes: seq<Class>, cnpj: string, e: Entity) {
    && e.kind == OfClass && e.cnpj == cnpj && NoRepeats(e.types)
    && (forall t :: t in e.types <==> exists c :: c in classes && c.cnpj == cnpj && t in TypesOf(c.family))
    && (Active(fold, e.situation) <==> exists c :: c in classes && c.cnpj == cnpj && Active(fold, c.situation))
  }

  lemma LoneClass(fold: string -> string, classes: seq<Class>, cnpj: string, rows: seq<Class>)
    requires rows != [] && forall c :: c in rows <==> c in classes && c.cnpj == cnpj
    ensures IsLoneClass(fold, classes, cnpj, ClassEntity(fold, rows))
  {
    hide Active, MergedTypes, TypesOf;
    assert PrimaryClass(fold, rows) in rows;
    var families := ClassFamilies(rows);
    MergedTypesMeaning(families);
    forall t
      ensures t in MergedTypes(families) <==> exists c :: c in classes && c.cnpj == cnpj && t in TypesOf(c.family)
    {
      if t in MergedTypes(families) {
        var k :| 0 <= k < |families| && t in TypesOf(families[k]);
        assert rows[k] in rows;
      }
      if c :| c in classes && c.cnpj == cnpj && t in TypesOf(c.family) {
        var k :| 0 <= k < |rows| && rows[k] == c;
        assert families[k] == c.family;
      }
    }
  }

  datatype Expansion =
    | Unknown
    | SingleClass(entity: Entity)
    | WholeFund(anchor: Entity, entities: seq<Entity>)

  /**
   Resolving a normalised CNPJ. A fund expands to its active classes; a CNPJ that is
   only a class yields that class alone, dead or alive; anything else is unknown.
   */
  method Expand(fold: string -> string, funds: seq<Fund>, classes: seq<Class>, cnpj: Option<string>)
    returns (r: Expansion)
    ensures r.WholeFund? <==> cnpj.Some? && exists f :: f in funds && f.cnpj == cnpj.value
    ensures r.Unknown? <==>
              cnpj.None? || ((forall f :: f in funds ==> f.cnpj != cnpj.value) &&
                             (forall c :: c in classes ==> c.cnpj != cnpj.value))
    ensures r.WholeFund? ==> exists keys, led ::
        Expanded(fold, funds, classes, cnpj.value, r.anchor, r.entities, keys, led)
    ensures r.SingleClass? ==> IsLoneClass(fold, classes, cnpj.value, r.entity)
  {
    hide Expanded, IsLoneClass, ClassEntity;
    if cnpj.None? {
      return Unknown;
    }
    var registrations := FundsOf(funds, cnpj.value);
    var rows := ClassesOf(classes, cnpj.value);
    if registrations != [] {
      assert registrations[0] in registrations;
      var anchor, entities, keys, led := ExpandFund(fold, funds, classes, cnpj.value);
      return WholeFund(anchor, entities);
    }
    if rows != [] {
      assert rows[0] in rows;
      LoneClass(fold, classes, cnpj.value, rows);
      return SingleClass(ClassEntity(fold, rows));
    }
    r := Unknown;
  }
}
