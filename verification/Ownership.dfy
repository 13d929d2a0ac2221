/** Which configured entity a Fundos.NET id belongs to -- only ever an unambiguous one. */
module Ownership {
  import opened Base
  import Cnpj

  datatype Entity = Entity(
    cnpj: string,
    fundosnetId: int,
    description: string,
    fundType: int,
    validatedAt: Option<string>,
    confirmed: bool)

  datatype Scope = Scope(title: string, legalName: string, entities: seq<Entity>)

  datatype Owner = Owner(scope: Scope, entity: Entity)

  function OwnersIn(scope: Scope, count: nat): seq<Owner>
    requires count <= |scope.entities|
  {
    seq(count, i requires 0 <= i < count => Owner(scope, scope.entities[i]))
  }

  /** Every configured (scope, entity) pair, in configuration order. */
  function Owners(scopes: seq<Scope>): seq<Owner> {
    if scopes == [] then []
    else
      var last := scopes[|scopes| - 1];
      Owners(scopes[..|scopes| - 1]) + OwnersIn(last, |last.entities|)
  }

  function Occurrences(owners: seq<Owner>, id: int): nat {
    if owners == [] then 0
    else Occurrences(owners[..|owners| - 1], id) + if owners[|owners| - 1].entity.fundosnetId == id then 1 else 0
  }

  lemma {:induction false} OneOccurrence(owners: seq<Owner>, id: int)
    ensures Occurrences(owners, id) == 0 <==> forall o :: o in owners ==> o.entity.fundosnetId != id
  {
    if owners != [] {
      OneOccurrence(owners[..|owners| - 1], id);
      assert owners == owners[..|owners| - 1] + [owners[|owners| - 1]];
    }
  }

  /** The manifest stores an entity id; this maps it back, or refuses to. */
  class EntityIndex {
    var byId: map<int, Owner>
    var conflicted: set<int>

    /** What the index holds once it has seen `owners`. */
    ghost predicate Indexes(owners: seq<Owner>)
      reads this
    {
      && (forall id :: id in byId <==> Occurrences(owners, id) == 1)
      && (forall id :: id in byId ==> byId[id] in owners && byId[id].entity.fundosnetId == id)
      && (forall id :: id in conflicted <==> Occurrences(owners, id) >= 2)
    }

    /** An id resolves if and only if it occurs exactly once across all scopes. */
    constructor (scopes: seq<Scope>)
      ensures Indexes(Owners(scopes))
    {
      byId, conflicted := map[], {};
      new;
      for i := 0 to |scopes|
        invariant Indexes(Owners(scopes[..i]))
      {
        AddAll(scopes[i], Owners(scopes[..i]));
        assert scopes[..i + 1][..i] == scopes[..i];
      }
      assert scopes[..|scopes|] == scopes;
    }

    method AddAll(scope: Scope, ghost before: seq<Owner>)
      requires Indexes(before)
      modifies this
      ensures Indexes(before + OwnersIn(scope, |scope.entities|))
    {
      hide Indexes, Occurrences;
      assert before + OwnersIn(scope, 0) == before;
      for j := 0 to |scope.entities|
        invariant Indexes(before + OwnersIn(scope, j))
      {
        Add(Owner(scope, scope.entities[j]), before + OwnersIn(scope, j));
        assert before + OwnersIn(scope, j) + [Owner(scope, scope.entities[j])] == before + OwnersIn(scope, j + 1);
      }
    }

    method Add(owner: Owner, ghost owners: seq<Owner>)
      requires Indexes(owners)
      modifies this
      ensures Indexes(owners + [owner])
    {
      ghost var more := owners + [owner];
      assert more[..|owners|] == owners;
      var id := owner.entity.fundosnetId;
      assert forall other :: Occurrences(more, other) == Occurrences(owners, other) + if other == id then 1 else 0;
      if id in conflicted {
        return;
      }
      if id !in byId {
        byId := byId[id := owner];
      } else {
        conflicted := conflicted + {id};
        byId := byId - {id};
      }
    }

    function Get(id: int): Option<Owner>
      reads this
    {
      if id in byId then Some(byId[id]) else None
    }
  }

  // ------------------------------------------------------------- consolidation

  datatype Identity = Identity(fundosnetId: int, fundType: int, cnpj: Option<string>)

  /** What two occurrences of an id must share for a confirmation of one to say anything about the other. */
  function IdentityOf(decimal: char -> bool, e: Entity): Identity {
    Identity(e.fundosnetId, e.fundType, Cnpj.Normalize(decimal, Some(Cnpj.Text(e.cnpj))))
  }

  /** All occurrences of an id agree on what it is. */
  ghost predicate Agree(decimal: char -> bool, entities: seq<Entity>, id: int) {
    forall a, b :: a in entities && b in entities && a.fundosnetId == id && b.fundosnetId == id ==>
      IdentityOf(decimal, a) == IdentityOf(decimal, b)
  }

  ghost predicate Occurs(entities: seq<Entity>, id: int) {
    exists e :: e in entities && e.fundosnetId == id
  }

  /** `e` is the first occurrence of its id. */
  ghost predicate FirstOccurrence(entities: seq<Entity>, e: Entity) {
    exists k :: 0 <= k < |entities| && entities[k] == e &&
      forall j :: 0 <= j < k ==> entities[j].fundosnetId != e.fundosnetId
  }

  /** First occurrences by id, in order, and the ids with a disagreeing occurrence. */
  ghost predicate Gathered(decimal: char -> bool, entities: seq<Entity>, order: seq<int>, byId: map<int, Entity>,
                           conflicted: set<int>) {
    && (forall i :: 0 <= i < |order| ==> order[i] in byId)
    && (forall i, j :: 0 <= i < j < |order| ==> order[i] != order[j])
    && (forall id :: id in byId ==> id in order)
    && (forall id :: id in byId ==> FirstOccurrence(entities, byId[id]) && byId[id].fundosnetId == id)
    && (forall e :: e in entities ==> e.fundosnetId in byId)
    && (forall id :: id in conflicted ==> id in byId && !Agree(decimal, entities, id))
    && (forall e :: e in entities && e.fundosnetId !in conflicted ==>
          IdentityOf(decimal, e) == IdentityOf(decimal, byId[e.fundosnetId]))
  }

  method Gather(decimal: char -> bool, resolved: seq<Entity>)
    returns (order: seq<int>, byId: map<int, Entity>, conflicted: set<int>)
    ensures Gathered(decimal, resolved, order, byId, conflicted)
  {
    hide Agree, IdentityOf, FirstOccurrence;
    order, byId, conflicted := [], map[], {};
    for k := 0 to |resolved|
      invariant Gathered(decimal, resolved[..k], order, byId, conflicted)
    {
      var e := resolved[k];
      assert resolved[..k + 1] == resolved[..k] + [e];
      StillDisagree(decimal, resolved[..k], e, conflicted);
      StillFirst(resolved[..k], e);
      if e.fundosnetId !in byId {
        order := order + [e.fundosnetId];
        byId := byId[e.fundosnetId := e];
      } else if IdentityOf(decimal, byId[e.fundosnetId]) != IdentityOf(decimal, e) {
        Disagree(decimal, resolved[..k + 1], byId[e.fundosnetId], e);
        conflicted := conflicted + {e.fundosnetId};
      }
    }
    assert resolved[..|resolved|] == resolved;
  }

  lemma StillDisagree(decimal: char -> bool, entities: seq<Entity>, e: Entity, conflicted: set<int>)
    requires forall id :: id in conflicted ==> !Agree(decimal, entities, id)
    ensures forall id :: id in conflicted ==> !Agree(decimal, entities + [e], id)
  {
    forall id | id in conflicted ensures !Agree(decimal, entities + [e], id) {
      var a, b :| a in entities && b in entities && a.fundosnetId == id && b.fundosnetId == id
                  && IdentityOf(decimal, a) != IdentityOf(decimal, b);
      assert a in entities + [e] && b in entities + [e];
    }
  }

  lemma StillFirst(entities: seq<Entity>, e: Entity)
    ensures forall first :: FirstOccurrence(entities, first) ==>
              FirstOccurrence(entities + [e], first) && first in entities
    ensures (forall other :: other in entities ==> other.fundosnetId != e.fundosnetId)
        ==> FirstOccurrence(entities + [e], e)
  {
    var more := entities + [e];
    forall first | FirstOccurrence(entities, first) ensures FirstOccurrence(more, first) {
      var k :| 0 <= k < |entities| && entities[k] == first &&
               forall j :: 0 <= j < k ==> entities[j].fundosnetId != first.fundosnetId;
      assert more[k] == first;
    }
    assert more[|entities|] == e;
  }

  lemma Disagree(decimal: char -> bool, entities: seq<Entity>, a: Entity, b: Entity)
    requires a in entities && b in entities && a.fundosnetId == b.fundosnetId
    requires IdentityOf(decimal, a) != IdentityOf(decimal, b)
    ensures !Agree(decimal, entities, a.fundosnetId)
  {
    hide IdentityOf;
  }

  /** The last previous entity recorded under an identity. */
  function LastWith(decimal: char -> bool, previous: seq<Entity>, identity: Identity): Option<Entity> {
    if previous == [] then None
    else if IdentityOf(decimal, previous[|previous| - 1]) == identity then Some(previous[|previous| - 1])
    else LastWith(decimal, previous[..|previous| - 1], identity)
  }

  /** A confirmation earned earlier is carried to exactly the same identity. */
  function Carried(decimal: char -> bool, previous: seq<Entity>, e: Entity): Entity {
    match LastWith(decimal, previous, IdentityOf(decimal, e))
    case None => e
    case Some(prior) => if prior.confirmed then e.(confirmed := true, validatedAt := prior.validatedAt) else e
  }

  method Consolidate(decimal: char -> bool, resolved: seq<Entity>, previous: seq<Entity>)
    returns (consolidated: seq<Entity>, conflicted: set<int>)
    ensures forall id :: Occurs(consolidated, id) <==> Occurs(resolved, id) && Agree(decimal, resolved, id)
    ensures forall i, j :: 0 <= i < j < |consolidated| ==> consolidated[i].fundosnetId != consolidated[j].fundosnetId
    ensures forall c :: c in consolidated ==> exists e ::
        FirstOccurrence(resolved, e) && c == Carried(decimal, previous, e)
    ensures forall id :: id in conflicted <==> !Agree(decimal, resolved, id)
  {
    var order, byId;
    order, byId, conflicted := Gather(decimal, resolved);
    consolidated := KeepAgreed(decimal, order, byId, conflicted, previous);
    KeptExactly(decimal, resolved, order, byId, conflicted);
    FirstsAreThere(decimal, resolved, order, byId, conflicted);
    hide Agree, IdentityOf, LastWith, Gathered, FirstOccurrence;
    forall id ensures Occurs(consolidated, id) <==> Occurs(resolved, id) && Agree(decimal, resolved, id) {
      if Occurs(resolved, id) && Agree(decimal, resolved, id) {
        assert Carried(decimal, previous, byId[id]) in consolidated;
      }
    }
  }

  lemma FirstsAreThere(decimal: char -> bool, resolved: seq<Entity>, order: seq<int>, byId: map<int, Entity>,
                       conflicted: set<int>)
    requires Gathered(decimal, resolved, order, byId, conflicted)
    ensures forall id :: id in order ==> id in byId && FirstOccurrence(resolved, byId[id])
    ensures forall id :: id in byId ==> id in order && byId[id].fundosnetId == id
  {
    hide Agree, IdentityOf, FirstOccurrence;
  }

  /**
   A confirmation travels to exactly the same identity: what comes out confirmed was
   confirmed already, or the last earlier entity of its (id, type, CNPJ) was.
   */
  lemma CarriedOnlyToItself(decimal: char -> bool, previous: seq<Entity>, e: Entity)
    ensures Carried(decimal, previous, e).(confirmed := e.confirmed, validatedAt := e.validatedAt) == e
    ensures Carried(decimal, previous, e).confirmed <==> e.confirmed || exists k ::
      && 0 <= k < |previous| && previous[k].confirmed && IdentityOf(decimal, previous[k]) == IdentityOf(decimal, e)
      && forall j :: k < j < |previous| ==> IdentityOf(decimal, previous[j]) != IdentityOf(decimal, e)
  {
    hide IdentityOf;
    LastWithMeaning(decimal, previous, IdentityOf(decimal, e));
  }

  lemma {:induction false} LastWithMeaning(decimal: char -> bool, previous: seq<Entity>, identity: Identity)
    ensures LastWith(decimal, previous, identity).None? <==>
              forall j :: 0 <= j < |previous| ==> IdentityOf(decimal, previous[j]) != identity
    ensures LastWith(decimal, previous, identity).Some? ==> exists k ::
      && 0 <= k < |previous| && previous[k] == LastWith(decimal, previous, identity).value
      && IdentityOf(decimal, previous[k]) == identity
      && forall j :: k < j < |previous| ==> IdentityOf(decimal, previous[j]) != identity
  {
    hide IdentityOf;
    if previous != [] && IdentityOf(decimal, previous[|previous| - 1]) != identity {
      var init := previous[..|previous| - 1];
      LastWithMeaning(decimal, init, identity);
      if LastWith(decimal, init, identity).Some? {
        var k :| 0 <= k < |init| && init[k] == LastWith(decimal, init, identity).value
          && IdentityOf(decimal, init[k]) == identity
                 && forall j :: k < j < |init| ==> IdentityOf(decimal, init[j]) != identity;
        assert previous[k] == init[k];
        assert forall j :: k < j < |init| ==> previous[j] == init[j];
      } else {
        assert forall j :: 0 <= j < |init| ==> previous[j] == init[j];
      }
    }
  }

  /** The first occurrences that were never contradicted, each with its earlier confirmation. */
  method KeepAgreed(decimal: char -> bool, order: seq<int>, byId: map<int, Entity>, conflicted: set<int>,
                    previous: seq<Entity>)
    returns (kept: seq<Entity>)
    requires forall i :: 0 <= i < |order| ==> order[i] in byId && byId[order[i]].fundosnetId == order[i]
    requires forall i, j :: 0 <= i < j < |order| ==> order[i] != order[j]
    ensures forall c :: c in kept ==>
      c.fundosnetId in order && c.fundosnetId !in conflicted && c == Carried(decimal, previous, byId[c.fundosnetId])
    ensures forall id :: id in order && id !in conflicted ==> Carried(decimal, previous, byId[id]) in kept
    ensures forall i, j :: 0 <= i < j < |kept| ==> kept[i].fundosnetId != kept[j].fundosnetId
  {
    hide IdentityOf, LastWith;
    kept := [];
    for k := 0 to |order|
      invariant forall c :: c in kept ==>
        c.fundosnetId in order[..k] && c.fundosnetId !in conflicted
          && c == Carried(decimal, previous, byId[c.fundosnetId])
      invariant forall id :: id in order[..k] && id !in conflicted ==> Carried(decimal, previous, byId[id]) in kept
      invariant forall i, j :: 0 <= i < j < |kept| ==> kept[i].fundosnetId != kept[j].fundosnetId
    {
      assert order[..k + 1] == order[..k] + [order[k]];
      if order[k] !in conflicted {
        kept := kept + [Carried(decimal, previous, byId[order[k]])];
      }
    }
    assert order[..|order|] == order;
  }

  /** An id is free of conflict exactly when all its occurrences agree -- in any input order. */
  lemma KeptExactly(decimal: char -> bool, resolved: seq<Entity>, order: seq<int>, byId: map<int, Entity>,
                    conflicted: set<int>)
    requires Gathered(decimal, resolved, order, byId, conflicted)
    ensures forall id :: id in byId <==> Occurs(resolved, id)
    ensures forall id :: id in conflicted <==> !Agree(decimal, resolved, id)
  {
    forall id ensures id in conflicted <==> !Agree(decimal, resolved, id) {
      if id !in conflicted {
        forall a, b | a in resolved && b in resolved && a.fundosnetId == id && b.fundosnetId == id
          ensures IdentityOf(decimal, a) == IdentityOf(decimal, b)
        {
          assert IdentityOf(decimal, a) == IdentityOf(decimal, byId[id]);
        }
      }
    }
  }
}
