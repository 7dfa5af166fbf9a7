/** The create-pet body schema shared by the pets endpoint and the pet
    service, and the case-insensitive `ILIKE` match their duplicate check
    runs on pet names. */
module PetNames {
  import opened Common

  datatype Species = Dog | Cat | Other

  function SpeciesName(s: Species): string {
    match s
    case Dog => "dog"
    case Cat => "cat"
    case Other => "other"
  }

  /** One field of a parsed JSON object: absent, a string, or a value of
      another JSON type (named as the validator names it, e.g. "number"). */
  datatype JsonField = Missing | Str(value: string) | NotString(typeName: string)

  /** A request body: not JSON at all, JSON that is not an object, or an
      object with the two fields the schema reads. */
  datatype Body = Unparsable | NotObject(typeName: string) | Object(name: JsonField, species: JsonField)

  datatype FieldError = FieldError(field: string, message: string)

  datatype CreatePetCommand = CreatePetCommand(name: string, species: Species)

  datatype Validation = Valid(command: CreatePetCommand) | Invalid(details: seq<FieldError>)

  const MaxNameLength: nat := 50
  const NameRequired: string := "Imię zwierzęcia jest wymagane"
  const NameTooLong: string := "Imię zwierzęcia nie może być dłuższe niż 50 znaków"
  const SpeciesInvalid: string := "Gatunek musi być jednym z: dog, cat, other"

  /** The species enum: exactly "dog", "cat" or "other". */
  function ParseSpecies(f: JsonField): (s: Option<Species>)
    ensures s.Some? <==> f.Str? && f.value in {"dog", "cat", "other"}
    ensures s.Some? ==> SpeciesName(s.value) == f.value
  {
    if f == Str("dog") then Some(Dog)
    else if f == Str("cat") then Some(Cat)
    else if f == Str("other") then Some(Other)
    else None
  }

  /** The name rule: a string, trimmed, of 1 to 50 characters. A missing or
      non-string name gets the validator's own type message. */
  function NameIssue(f: JsonField): (m: Option<string>)
    ensures m.None? <==> f.Str? && 1 <= |Trim(f.value)| <= MaxNameLength
  {
    match f
    case Missing => Some("Required")
    case NotString(t) => Some("Expected string, received " + t)
    case Str(s) =>
      var t := Trim(s);
      if |t| < 1 then Some(NameRequired)
      else if |t| > MaxNameLength then Some(NameTooLong)
      else None
  }

  /** The create-pet schema: either the trimmed name and the species, or one
      error per failing field, name first, with the field as its path. */
  function ValidateCreatePet(name: JsonField, species: JsonField): (v: Validation)
    ensures v.Valid? <==> (name.Str? && 1 <= |Trim(name.value)| <= MaxNameLength
                           && species.Str? && species.value in {"dog", "cat", "other"})
    ensures v.Valid? ==>
      v.command.name == Trim(name.value) && SpeciesName(v.command.species) == species.value
    ensures v.Invalid? ==>
      && 1 <= |v.details| <= 2
      && (v.details[0].field == "name" <==> NameIssue(name).Some?)
      && (FieldError("species", SpeciesInvalid) in v.details <==> ParseSpecies(species).None?)
      && (forall e :: e in v.details ==> e.field in {"name", "species"})
  {
    var nameErrors := if NameIssue(name).Some? then [FieldError("name", NameIssue(name).value)] else [];
    var speciesErrors := if ParseSpecies(species).None? then [FieldError("species", SpeciesInvalid)] else [];
    if nameErrors == [] && speciesErrors == [] then
      Valid(CreatePetCommand(Trim(name.value), ParseSpecies(species).value))
    else
      Invalid(nameErrors + speciesErrors)
  }

  /** A validated name is already trimmed and within the length bounds. */
  lemma {:induction false} ValidNameIsTrimmed(name: JsonField, species: JsonField)
    requires ValidateCreatePet(name, species).Valid?
    ensures var n := ValidateCreatePet(name, species).command.name;
      Trim(n) == n && 1 <= |n| <= MaxNameLength
  {
    TrimIdempotent(name.value);
  }

  /** The whole body: a non-object is one error at the empty path. */
  function ValidateBody(b: Body): (v: Validation)
    requires !b.Unparsable?
    ensures b.NotObject? ==> v == Invalid([FieldError("", "Expected object, received " + b.typeName)])
    ensures b.Object? ==> v == ValidateCreatePet(b.name, b.species)
  {
    match b
    case NotObject(t) => Invalid([FieldError("", "Expected object, received " + t)])
    case Object(n, s) => ValidateCreatePet(n, s)
  }

  /** Case folding for the match: ASCII letters only. */
  function Fold(c: char): (d: char)
    ensures 'A' <= c <= 'Z' ==> d as int == c as int + 32
    ensures !('A' <= c <= 'Z') ==> d == c
  {
    if 'A' <= c <= 'Z' then (c as int + 32) as char else c
  }

  /** Equality ignoring (ASCII) case. */
  predicate SameIgnoringCase(s: string, t: string) {
    |s| == |t| && forall i :: 0 <= i < |s| ==> Fold(s[i]) == Fold(t[i])
  }

  /** `s ILIKE p`: `%` matches any run of characters, `_` any one
      character, a backslash makes the next character literal, every other
      character matches itself ignoring case. */
  predicate Like(s: string, p: string)
    decreases |s| + |p|
  {
    if p == [] then s == []
    else if p[0] == '%' then Like(s, p[1..]) || (s != [] && Like(s[1..], p))
    else if p[0] == '_' then s != [] && Like(s[1..], p[1..])
    else if p[0] == '\\' && |p| >= 2 then s != [] && Fold(s[0]) == Fold(p[1]) && Like(s[1..], p[2..])
    else s != [] && Fold(s[0]) == Fold(p[0]) && Like(s[1..], p[1..])
  }

  /** A pattern ending in a backslash that escapes nothing is refused by the
      database: the query fails. */
  predicate EndsInLoneEscape(p: string)
    decreases |p|
  {
    if p == [] then false
    else if p[0] == '\\' then |p| == 1 || EndsInLoneEscape(p[2..])
    else EndsInLoneEscape(p[1..])
  }

  /** The filter value as the REST layer hands it to `ILIKE`: every `*` is
      read as `%`, its documented alias in like and ilike filters. */
  function StarsAsPercent(v: string): (p: string)
    ensures |p| == |v|
    ensures forall i :: 0 <= i < |v| ==> p[i] == (if v[i] == '*' then '%' else v[i])
  {
    if v == [] then [] else [if v[0] == '*' then '%' else v[0]] + StarsAsPercent(v[1..])
  }

  /** `.ilike(column, value)`: the value, with `*` read as `%`, used as an
      `ILIKE` pattern. */
  predicate Ilike(s: string, value: string) {
    Like(s, StarsAsPercent(value))
  }

  /** The name as the duplicate check passes it to `.ilike`: unchanged, so
      its `%`, `_`, `*` and backslashes act as pattern syntax. */
  function DuplicatePatternAsWritten(name: string): string {
    name
  }

  /** As written, a name with wildcards matches other names: a pet called
      "Rex" matches the requested names "R_x", "R*" and "%", none of which
      is its name in any case. */
  lemma WildcardsMatchOtherNames()
    ensures Ilike("Rex", DuplicatePatternAsWritten("R_x")) && !SameIgnoringCase("Rex", "R_x")
    ensures Ilike("Rex", DuplicatePatternAsWritten("R*")) && !SameIgnoringCase("Rex", "R*")
    ensures Ilike("Rex", DuplicatePatternAsWritten("%")) && !SameIgnoringCase("Rex", "%")
  {
    assert StarsAsPercent("R_x") == "R_x";
    assert StarsAsPercent("R*") == "R%";
    assert StarsAsPercent("%") == "%";
    assert Like("x", "x") by { assert Like("", ""); }
    assert Like("ex", "_x");
    assert Like("", "%");
    assert Like("x", "%") && Like("ex", "%");
    assert Fold('R') == 'r' && Fold('_') == '_';
    assert Fold('e') != Fold('_') && Fold('e') != Fold('*');
  }

  /** `%` matches every name. */
  lemma {:induction false} PercentMatchesAll(s: string)
    ensures Ilike(s, "%")
    decreases |s|
  {
    assert StarsAsPercent("%") == "%";
    if s != [] {
      PercentMatchesAll(s[1..]);
    }
  }

  /** The characters `ILIKE` treats as syntax. */
  predicate IsLikeSyntax(c: char) {
    c == '%' || c == '_' || c == '\\'
  }

  /** A name with no pattern syntax at all, `*` included. */
  predicate PlainName(name: string) {
    forall i :: 0 <= i < |name| ==> !IsLikeSyntax(name[i]) && name[i] != '*'
  }

  /** The name escaped for `ILIKE`: each `%`, `_` and backslash preceded by a
      backslash. */
  function EscapeLike(name: string): (p: string)
    ensures |p| >= |name|
    ensures name == [] ==> p == []
    ensures name != [] && IsLikeSyntax(name[0]) ==> p == ['\\', name[0]] + EscapeLike(name[1..])
    ensures name != [] && !IsLikeSyntax(name[0]) ==> p == [name[0]] + EscapeLike(name[1..])
  {
    if name == [] then []
    else (if IsLikeSyntax(name[0]) then ['\\', name[0]] else [name[0]]) + EscapeLike(name[1..])
  }

  /** The pattern the duplicate check should pass. */
  function DuplicatePattern(name: string): string {
    EscapeLike(name)
  }

  lemma {:induction false} SameIgnoringCaseStep(s: string, t: string)
    requires s != [] && t != []
    ensures SameIgnoringCase(s, t) <==> Fold(s[0]) == Fold(t[0]) && SameIgnoringCase(s[1..], t[1..])
  {
    if Fold(s[0]) == Fold(t[0]) && SameIgnoringCase(s[1..], t[1..]) {
      forall i | 0 <= i < |s| ensures Fold(s[i]) == Fold(t[i]) {
        if i > 0 {
          assert s[i] == s[1..][i - 1] && t[i] == t[1..][i - 1];
        }
      }
    }
  }

  /** With the name escaped, the SQL `ILIKE` match is exactly equality
      ignoring case, and the pattern is one the database accepts. */
  lemma {:induction false} EscapedLikeIsEquality(s: string, name: string)
    ensures Like(s, EscapeLike(name)) <==> SameIgnoringCase(s, name)
    ensures !EndsInLoneEscape(EscapeLike(name))
    ensures '*' !in name ==> '*' !in EscapeLike(name)
    decreases |name|
  {
    var p := EscapeLike(name);
    if name == [] {
      assert p == [];
    } else {
      EscapedLikeIsEquality(if s == [] then s else s[1..], name[1..]);
      var rest := EscapeLike(name[1..]);
      if IsLikeSyntax(name[0]) {
        assert p[0] == '\\' && p[1] == name[0] && p[2..] == rest;
        assert Fold(name[0]) == name[0];
      } else {
        assert p[0] == name[0] && p[1..] == rest;
      }
      if s != [] {
        SameIgnoringCaseStep(s, name);
      }
    }
  }

  /** A value without `*` reaches `ILIKE` unchanged. */
  lemma NoStarUnchanged(v: string)
    requires '*' !in v
    ensures StarsAsPercent(v) == v
  {
  }

  /** With the name escaped, the `.ilike` filter is exactly equality ignoring
      case and the database accepts the pattern, for every name without `*`
      (no escape turns a `*` back into a literal `*`). */
  lemma EscapedMatchIsEquality(s: string, name: string)
    requires '*' !in name
    ensures Ilike(s, DuplicatePattern(name)) <==> SameIgnoringCase(s, name)
    ensures !EndsInLoneEscape(StarsAsPercent(DuplicatePattern(name)))
  {
    EscapedLikeIsEquality(s, name);
    NoStarUnchanged(EscapeLike(name));
  }

  /** A plain name needs no escaping: the pattern as written is the escaped
      one. */
  lemma {:induction false} PlainNameNeedsNoEscape(name: string)
    requires PlainName(name)
    ensures EscapeLike(name) == name && '*' !in name
    decreases |name|
  {
    if name != [] {
      PlainNameNeedsNoEscape(name[1..]);
    }
  }

  /** For a plain name the check as written is already right: the filter is
      equality ignoring case, and the pattern is accepted. */
  lemma PlainNameMatchIsEquality(s: string, name: string)
    requires PlainName(name)
    ensures Ilike(s, DuplicatePatternAsWritten(name)) <==> SameIgnoringCase(s, name)
    ensures !EndsInLoneEscape(StarsAsPercent(DuplicatePatternAsWritten(name)))
  {
    PlainNameNeedsNoEscape(name);
    EscapedMatchIsEquality(s, name);
  }
}
