/** From the configured scopes to the owners a listed fund name may belong to. */
module Watchlist {
  import opened Base
  import opened Ownership

  /** The spellings an entity answers to: its scope's legal name and its own description. */
  predicate AnswersTo(fold: string -> string, o: Owner, name: string) {
    name != "" && (name == fold(o.scope.legalName) || name == fold(o.entity.description))
  }

  type Names = map<string, seq<Owner>>

  function At(index: map<int, Names>, fundType: int, name: string): seq<Owner> {
    if fundType in index && name in index[fundType] then index[fundType][name] else []
  }

  /** Each cell lists exactly the owners answering to its name within its fund type. */
  ghost predicate CellsRight(fold: string -> string, owners: seq<Owner>, index: map<int, Names>) {
    forall fundType, name, o :: o in At(index, fundType, name) <==>
      o in owners && o.entity.fundType == fundType && AnswersTo(fold, o, name)
  }

  ghost predicate CellsUnique(index: map<int, Names>) {
    forall fundType, name :: NoRepeats(At(index, fundType, name))
  }

  ghost predicate TypesRight(owners: seq<Owner>, index: map<int, Names>) {
    forall fundType :: fundType in index <==> exists o :: o in owners && o.entity.fundType == fundType
  }

  /** Per fund type and folded name, every owner answering to it, once each. */
  ghost predicate Answers(fold: string -> string, owners: seq<Owner>, index: map<int, Names>) {
    CellsRight(fold, owners, index) && CellsUnique(index) && TypesRight(owners, index)
  }

  ghost predicate NoRepeats(owners: seq<Owner>) {
    forall i, j :: 0 <= i < j < |owners| ==> owners[i] != owners[j]
  }

  /** File one owner under one spelling, unless it is already there or the spelling is empty. */
  function FileUnder(names: Names, name: string, o: Owner): Names {
    if name == "" || (name in names && o in names[name]) then names
    else names[name := (if name in names then names[name] else []) + [o]]
  }

  function Indexed(fold: string -> string, index: map<int, Names>, o: Owner): map<int, Names> {
    var names := if o.entity.fundType in index then index[o.entity.fundType] else map[];
    index[o.entity.fundType := FileUnder(FileUnder(names, fold(o.scope.legalName), o), fold(o.entity.description), o)]
  }

  lemma FiledUnder(names: Names, name: string, o: Owner, other: string, x: Owner)
    ensures var after := FileUnder(names, name, o);
            var was, now := (if other in names then names[other] else []),
              (if other in after then after[other] else []);
            && (x in now <==> x in was || (x == o && other == name && name != ""))
            && (NoRepeats(was) ==> NoRepeats(now))
  {
  }

  /** What one more owner adds to one cell of the index. */
  lemma CellStep(fold: string -> string, index: map<int, Names>, o: Owner, fundType: int, name: string, x: Owner)
    ensures var was, now := At(index, fundType, name), At(Indexed(fold, index, o), fundType, name);
            && (x in now <==> x in was || (x == o && fundType == o.entity.fundType && AnswersTo(fold, o, name)))
            && (NoRepeats(was) ==> NoRepeats(now))
  {
    hide NoRepeats, FileUnder;
    if fundType == o.entity.fundType {
      var names := if fundType in index then index[fundType] else map[];
      FiledUnder(names, fold(o.scope.legalName), o, name, x);
      FiledUnder(FileUnder(names, fold(o.scope.legalName), o), fold(o.entity.description), o, name, x);
    }
  }

  lemma CellsStep(fold: string -> string, owners: seq<Owner>, index: map<int, Names>, o: Owner)
    requires CellsRight(fold, owners, index) && CellsUnique(index)
    ensures CellsRight(fold, owners + [o], Indexed(fold, index, o)) && CellsUnique(Indexed(fold, index, o))
  {
    hide Indexed;
    forall fundType, name, x {
      CellStep(fold, index, o, fundType, name, x);
    }
    forall fundType, name ensures NoRepeats(At(Indexed(fold, index, o), fundType, name)) {
      assert NoRepeats(At(index, fundType, name));
      CellStep(fold, index, o, fundType, name, o);
    }
  }

  lemma IndexedStep(fold: string -> string, owners: seq<Owner>, index: map<int, Names>, o: Owner)
    requires Answers(fold, owners, index)
    ensures Answers(fold, owners + [o], Indexed(fold, index, o))
  {
    hide Indexed, CellsRight, CellsUnique;
    CellsStep(fold, owners, index, o);
    IndexedTypes(fold, index, o);
    TypesStep(owners, index, o, Indexed(fold, index, o));
  }

  lemma IndexedTypes(fold: string -> string, index: map<int, Names>, o: Owner)
    ensures Indexed(fold, index, o).Keys == index.Keys + {o.entity.fundType}
  {
  }

  lemma TypesStep(owners: seq<Owner>, index: map<int, Names>, o: Owner, after: map<int, Names>)
    requires TypesRight(owners, index)
    requires after.Keys == index.Keys + {o.entity.fundType}
    ensures TypesRight(owners + [o], after)
  {
    forall fundType ensures fundType in after <==> exists x :: x in owners + [o] && x.entity.fundType == fundType {
      if x :| x in owners + [o] && x.entity.fundType == fundType {
        assert x in owners || x == o;
      }
      if fundType in index {
        var x :| x in owners && x.entity.fundType == fundType;
        assert x in owners + [o];
      } else if fundType == o.entity.fundType {
        assert o in owners + [o];
      }
    }
  }

  method MonitoredNames(fold: string -> string, scopes: seq<Scope>) returns (index: map<int, Names>)
    ensures Answers(fold, Owners(scopes), index)
  {
    hide Answers, Indexed;
    index := map[];
    NoNames(fold);
    for i := 0 to |scopes|
      invariant Answers(fold, Owners(scopes[..i]), index)
    {
      index := IndexScope(fold, scopes[i], index, Owners(scopes[..i]));
      assert scopes[..i + 1][..i] == scopes[..i];
    }
    assert scopes[..|scopes|] == scopes;
  }

  lemma NoNames(fold: string -> string)
    ensures Answers(fold, [], map[])
  {
  }

  method IndexScope(fold: string -> string, scope: Scope, index0: map<int, Names>, ghost before: seq<Owner>)
    returns (index: map<int, Names>)
    requires Answers(fold, before, index0)
    ensures Answers(fold, before + OwnersIn(scope, |scope.entities|), index)
  {
    hide Answers, Indexed;
    index := index0;
    assert before + OwnersIn(scope, 0) == before;
    for j := 0 to |scope.entities|
      invariant Answers(fold, before + OwnersIn(scope, j), index)
    {
      var o := Owner(scope, scope.entities[j]);
      IndexedStep(fold, before + OwnersIn(scope, j), index, o);
      index := Indexed(fold, index, o);
      assert before + OwnersIn(scope, j) + [o] == before + OwnersIn(scope, j + 1);
    }
  }
}
