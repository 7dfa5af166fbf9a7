/** The pet service's `createPet`: the same validation and duplicate check as
    the endpoint, a finer reading of insert errors, and the owner link
    written after the pet. */
module PetService {
  import opened Common
  import opened PetNames
  import opened PetStore
  import PetsApi

  datatype CreatePetResult =
    | Success(id: string, animalCode: string, name: string, species: Species, createdAt: string)
    | Failure(status: int, error: string, message: string, details: seq<FieldError>)

  function ResultStatus(r: CreatePetResult): int {
    if r.Success? then 201 else r.status
  }

  /** The code the database gives a unique-constraint violation. */
  const UniqueViolation: string := "23505"

  /** `createPet(supabase, userId, body)` on the store before the call: the
      result and the store after it. The body is an already parsed value,
      so the service's "invalid JSON" answer cannot arise. */
  function CreatePetOutcome(s: Store, userId: string, body: Body, checkFails: bool, insert: InsertResult,
                            linkFails: bool, thrown: bool): (o: (CreatePetResult, Store))
    requires !body.Unparsable?
    ensures thrown ==> o == (Failure(500, "Server Error", "Wystąpił nieoczekiwany błąd serwera", []), s)
    ensures !thrown && ValidateBody(body).Invalid? ==>
      o == (Failure(400, "Validation Failed", "Walidacja danych wejściowych nie powiodła się", ValidateBody(body).details), s)
    ensures ResultStatus(o.0) in {201, 400, 409, 500}
    ensures !o.0.Success? ==> o.1 == s
    ensures ResultStatus(o.0) == 409 <==> (!thrown && ValidateBody(body).Valid?
      && (OwnedDuplicate(s, userId, ValidateBody(body).command.name, checkFails) || insert == InsertError(UniqueViolation)))
    ensures o.0.Success? <==> (!thrown && ValidateBody(body).Valid?
      && !OwnedDuplicate(s, userId, ValidateBody(body).command.name, checkFails) && insert.InsertOk?)
    ensures o.0.Success? ==>
      var p := PetRecord(o.0.id, o.0.animalCode, o.0.name, o.0.species, o.0.createdAt, false);
      o.1 == Store(s.pets + [p], if linkFails then s.owners else s.owners + [Ownership(userId, o.0.id)])
  {
    if thrown then (Failure(500, "Server Error", "Wystąpił nieoczekiwany błąd serwera", []), s)
    else
      match ValidateBody(body)
      case Invalid(details) =>
        (Failure(400, "Validation Failed", "Walidacja danych wejściowych nie powiodła się", details), s)
      case Valid(cmd) => CreateValidated(s, userId, cmd, checkFails, insert, linkFails)
  }

  /** The service once the body has passed validation: a pet of the user's
      with the same name, or a unique violation on insert, is a conflict;
      a created pet is stored and, unless that insert fails, linked to its
      creator. */
  function CreateValidated(s: Store, userId: string, cmd: CreatePetCommand, checkFails: bool, insert: InsertResult,
                           linkFails: bool): (o: (CreatePetResult, Store))
    ensures ResultStatus(o.0) in {201, 409, 500}
    ensures !o.0.Success? ==> o.1 == s
    ensures ResultStatus(o.0) == 409 <==> OwnedDuplicate(s, userId, cmd.name, checkFails) || insert == InsertError(UniqueViolation)
    ensures o.0.Success? <==> !OwnedDuplicate(s, userId, cmd.name, checkFails) && insert.InsertOk?
    ensures o.0.Success? ==>
      var p := PetRecord(o.0.id, o.0.animalCode, o.0.name, o.0.species, o.0.createdAt, false);
      o.1 == Store(s.pets + [p], if linkFails then s.owners else s.owners + [Ownership(userId, o.0.id)])
  {
    if OwnedDuplicate(s, userId, cmd.name, checkFails) then
      (Failure(409, "Conflict", PetsApi.ConflictMessage(cmd.name), []), s)
    else
      match insert
      case InsertError(code) =>
        if code == UniqueViolation then (Failure(409, "Conflict", "Zwierzę o tej nazwie już istnieje", []), s)
        else (Failure(500, "Database Error", "Nie udało się utworzyć zwierzęcia", []), s)
      case InsertNoRow =>
        (Failure(500, "Database Error", "Nie udało się pobrać danych utworzonego zwierzęcia", []), s)
      case InsertOk(id, code, at) =>
        var p := PetRecord(id, code, cmd.name, cmd.species, at, false);
        (Success(id, code, cmd.name, cmd.species, at),
         Store(s.pets + [p], if linkFails then s.owners else s.owners + [Ownership(userId, id)]))
  }

  /** The service and the endpoint answer alike for a signed-in caller with
      a parsed body, except that the service reads a unique violation on
      insert as a conflict where the endpoint reports a server error. */
  lemma {:induction false} ServiceAgreesWithEndpoint(s: Store, userId: string, body: Body, checkFails: bool,
                                                     insert: InsertResult, linkFails: bool, thrown: bool)
    requires !body.Unparsable?
    ensures var svc := ResultStatus(CreatePetOutcome(s, userId, body, checkFails, insert, linkFails, thrown).0);
      var api := PetsApi.PostStatus(PetsApi.PostOutcome(s, true, Some(userId), body, checkFails, insert, thrown).0);
      && (insert != InsertError(UniqueViolation) ==> svc == api)
      && (insert == InsertError(UniqueViolation) && svc != api ==> svc == 409 && api == 500)
  {
    if !thrown && ValidateBody(body).Valid? {
      ValidatedAgree(s, userId, ValidateBody(body).command, checkFails, insert, linkFails);
    }
  }

  /** The same agreement once the body has passed validation. */
  lemma ValidatedAgree(s: Store, userId: string, cmd: CreatePetCommand, checkFails: bool,
                       insert: InsertResult, linkFails: bool)
    ensures var svc := ResultStatus(CreateValidated(s, userId, cmd, checkFails, insert, linkFails).0);
      var api := PetsApi.PostStatus(PetsApi.CreateOutcome(s, userId, cmd, checkFails, insert).0);
      && (insert != InsertError(UniqueViolation) ==> svc == api)
      && (insert == InsertError(UniqueViolation) && svc != api ==> svc == 409 && api == 500)
  {
  }

  /** After a creation the new pet is in its creator's list exactly when the
      owner link was written: a failed link leaves a pet its creator cannot
      see. */
  lemma {:induction false} CreatorSeesPetIffLinked(s: Store, userId: string, body: Body, checkFails: bool,
                                                   insert: InsertResult, linkFails: bool)
    requires !body.Unparsable?
    requires insert.InsertOk? && !Owns(s.owners, userId, insert.id)
    requires CreatePetOutcome(s, userId, body, checkFails, insert, linkFails, false).0.Success?
    ensures var t := CreatePetOutcome(s, userId, body, checkFails, insert, linkFails, false).1;
      insert.id in PetsApi.OwnedPetIds(t.owners, userId) <==> !linkFails
  {
    var o := CreatePetOutcome(s, userId, body, checkFails, insert, linkFails, false);
    assert o.0.id == insert.id;
    if !linkFails {
      assert Ownership(userId, insert.id) in o.1.owners;
    }
  }

  /** The service on the tables: the early returns in order, the pet insert,
      then the owner link, whose failure is not reported. */
  method CreatePet(tables: PetTables, userId: string, body: Body, checkFails: bool, insert: InsertResult,
                   linkFails: bool, thrown: bool) returns (r: CreatePetResult)
    requires !body.Unparsable?
    modifies tables
    ensures (r, tables.State()) == CreatePetOutcome(old(tables.State()), userId, body, checkFails, insert, linkFails, thrown)
  {
    if thrown {
      return Failure(500, "Server Error", "Wystąpił nieoczekiwany błąd serwera", []);
    }
    var v := ValidateBody(body);
    if v.Invalid? {
      return Failure(400, "Validation Failed", "Walidacja danych wejściowych nie powiodła się", v.details);
    }
    r := CreateCommand(tables, userId, v.command, checkFails, insert, linkFails);
  }

  /** The validated part of `createPet`: the duplicate check, the insert
      and the ownership link. */
  method CreateCommand(tables: PetTables, userId: string, cmd: CreatePetCommand, checkFails: bool,
                       insert: InsertResult, linkFails: bool) returns (r: CreatePetResult)
    modifies tables
    ensures (r, tables.State()) == CreateValidated(old(tables.State()), userId, cmd, checkFails, insert, linkFails)
  {
    if OwnedDuplicate(tables.State(), userId, cmd.name, checkFails) {
      return Failure(409, "Conflict", PetsApi.ConflictMessage(cmd.name), []);
    }
    match insert {
      case InsertError(code) =>
        if code == UniqueViolation {
          r := Failure(409, "Conflict", "Zwierzę o tej nazwie już istnieje", []);
        } else {
          r := Failure(500, "Database Error", "Nie udało się utworzyć zwierzęcia", []);
        }
      case InsertNoRow =>
        r := Failure(500, "Database Error", "Nie udało się pobrać danych utworzonego zwierzęcia", []);
      case InsertOk(id, code, at) =>
        tables.InsertPet(PetRecord(id, code, cmd.name, cmd.species, at, false));
        if !linkFails {
          tables.InsertOwnership(Ownership(userId, id));
        }
        r := Success(id, code, cmd.name, cmd.species, at);
    }
  }
}
