/** The two tables the create-pet paths read and write, kept abstract: the
    pets (with their soft-delete flag) and the owner links, and the
    duplicate-name check both create paths run against them. */
module PetStore {
  import opened Common
  import opened PetNames

  datatype PetRecord = PetRecord(
    id: string, animalCode: string, name: string, species: Species, createdAt: string, isDeleted: bool)

  datatype Ownership = Ownership(userId: string, petId: string)

  datatype Store = Store(pets: seq<PetRecord>, owners: seq<Ownership>)

  /** What the database answers to an insert of a pet: the new row's
      generated fields, an error with its code, or no row. */
  datatype InsertResult = InsertOk(id: string, animalCode: string, createdAt: string) | InsertError(code: string) | InsertNoRow

  /** The first active pet, in the table's order, whose name passes the
      `.ilike` filter (the query's `limit(1)`). */
  function FirstActiveMatch(pets: seq<PetRecord>, value: string): (r: Option<PetRecord>)
    ensures r.Some? ==> r.value in pets && !r.value.isDeleted && Ilike(r.value.name, value)
    ensures r.None? <==> forall q :: q in pets ==> q.isDeleted || !Ilike(q.name, value)
    ensures pets != [] && !pets[0].isDeleted && Ilike(pets[0].name, value) ==> r == Some(pets[0])
  {
    if pets == [] then None
    else if !pets[0].isDeleted && Ilike(pets[0].name, value) then Some(pets[0])
    else FirstActiveMatch(pets[1..], value)
  }

  /** The answer of the duplicate query: no data when it failed (a failure
      injected by `checkFails`, or a pattern the database refuses), else the
      first match if any. */
  function DuplicateQuery(pets: seq<PetRecord>, value: string, checkFails: bool): (r: Option<PetRecord>)
    ensures checkFails || EndsInLoneEscape(StarsAsPercent(value)) ==> r.None?
    ensures !checkFails && !EndsInLoneEscape(StarsAsPercent(value)) ==> r == FirstActiveMatch(pets, value)
  {
    if checkFails || EndsInLoneEscape(StarsAsPercent(value)) then None else FirstActiveMatch(pets, value)
  }

  predicate Owns(owners: seq<Ownership>, userId: string, petId: string) {
    Ownership(userId, petId) in owners
  }

  /** The conflict decision as both create paths run it: the raw trimmed
      name goes to `.ilike`, and the pet it finds belongs to the caller. A
      failed duplicate query is ignored: no conflict. */
  predicate OwnedDuplicate(s: Store, userId: string, name: string, checkFails: bool) {
    var m := DuplicateQuery(s.pets, DuplicatePatternAsWritten(name), checkFails);
    m.Some? && Owns(s.owners, userId, m.value.id)
  }

  /** For a name without pattern syntax a conflict always names a real
      duplicate: an active pet of the caller's whose name equals the
      requested one ignoring case. */
  lemma {:induction false} ConflictIsRealDuplicate(s: Store, userId: string, name: string, checkFails: bool)
    requires PlainName(name)
    requires OwnedDuplicate(s, userId, name, checkFails)
    ensures exists q :: q in s.pets && !q.isDeleted && SameIgnoringCase(q.name, name) && Owns(s.owners, userId, q.id)
  {
    var q := DuplicateQuery(s.pets, DuplicatePatternAsWritten(name), checkFails).value;
    PlainNameMatchIsEquality(q.name, name);
  }

  /** When the pets the query sees are the caller's own (the row-level
      policy of the pets table), the query succeeds and the name has no
      pattern syntax, an active pet of the caller's with the same name
      ignoring case always produces a conflict. */
  lemma {:induction false} OwnDuplicateIsFound(s: Store, userId: string, name: string, q: PetRecord)
    requires PlainName(name)
    requires forall p :: p in s.pets && !p.isDeleted ==> Owns(s.owners, userId, p.id)
    requires q in s.pets && !q.isDeleted && SameIgnoringCase(q.name, name)
    ensures OwnedDuplicate(s, userId, name, false)
  {
    PlainNameMatchIsEquality(q.name, name);
    PlainNameMatchIsEquality("", name);
  }

  /** As written, the name `%` conflicts with whatever active pet comes
      first, whatever that pet is called. */
  lemma PercentNameConflicts(s: Store, userId: string)
    requires s.pets != [] && !s.pets[0].isDeleted && Owns(s.owners, userId, s.pets[0].id)
    ensures OwnedDuplicate(s, userId, "%", false)
  {
    PercentMatchesAll(s.pets[0].name);
    assert StarsAsPercent("%") == "%";
    assert !EndsInLoneEscape("%");
  }

  /** The pets table and the owner links, updated in place by the inserts. */
  class PetTables {
    var pets: seq<PetRecord>
    var owners: seq<Ownership>

    function State(): Store
      reads this
    {
      Store(pets, owners)
    }

    constructor (s: Store)
      ensures State() == s
    {
      pets, owners := s.pets, s.owners;
    }

    method InsertPet(p: PetRecord)
      modifies this
      ensures State() == old(State()).(pets := old(pets) + [p])
    {
      pets := pets + [p];
    }

    method InsertOwnership(o: Ownership)
      modifies this
      ensures State() == old(State()).(owners := old(owners) + [o])
    {
      owners := owners + [o];
    }
  }
}
