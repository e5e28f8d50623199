/**
 * The request-level rules of the user registry: how a field of the JSON body is
 * seen by the handlers, the field checks of the create and update routes, the
 * normalisation of names and e-mails, and the update payload built field by field.
 */
module Rules {
  import opened Text

  datatype Option<+T> = None | Some(value: T)

  /**
   * One field of the destructured request body, dynamically typed: missing, a string,
   * a number, or anything else (null, a boolean, an object or an array), for which
   * only its JavaScript truthiness matters here.
   */
  datatype Value = Absent | Str(s: string) | Num(n: int) | Other(truthy: bool)

  /** JavaScript truthiness: `undefined`, `""` and `0` are falsy. */
  predicate Truthy(v: Value) {
    match v
    case Absent => false
    case Str(s) => s != []
    case Num(n) => n != 0
    case Other(t) => t
  }

  /** The `{ name, age, email }` fields of a request body. */
  datatype Body = Body(name: Value, age: Value, email: Value)

  /** A stored user record (its identifier is the key it is stored under). */
  datatype User = User(name: string, age: int, email: string)

  const MinAge: int := 0
  const MaxAge: int := 120

  /** Create rule for name and email: a truthy string whose trim is non-empty. */
  predicate NonBlankString(v: Value) {
    Truthy(v) && v.Str? && Trim(v.s) != []
  }

  /** Age rule, the same on create and update: a number in [MinAge, MaxAge], both ends included. */
  predicate AgeInRange(v: Value) {
    v.Num? && MinAge <= v.n <= MaxAge
  }

  /** Update rule for name and email: a truthy string; it is not trimmed before the test. */
  predicate NonEmptyString(v: Value) {
    Truthy(v) && v.Str?
  }

  /** The whole create check: none of its nine conditions fails. */
  predicate CreateFieldsOk(b: Body) {
    NonBlankString(b.name) && NonBlankString(b.email) && AgeInRange(b.age)
  }

  /**
   * `email.trim().toLowerCase()`: empty exactly when the input is all whitespace;
   * NormalizeEmailCutsAndLowers and NormalizedEmailShape say what else it is.
   */
  function NormalizeEmail(s: string): (r: string)
    ensures |r| <= |s|
    ensures r == [] <==> AllSpace(s)
  {
    ToLower(Trim(s))
  }

  /** The normal form of `s` is the lower-cased piece of `s` at offset `i` around which there is only whitespace. */
  lemma NormalizeEmailCutsAndLowers(s: string) returns (i: nat)
    ensures var r := NormalizeEmail(s);
      i + |r| <= |s| && r == ToLower(s[i..i + |r|]) && AllSpace(s[..i]) && AllSpace(s[i + |r|..])
  {
    i := TrimCutsWhitespace(s);
  }

  /** A normalised e-mail has no surrounding whitespace and no upper-case ASCII letter. */
  lemma NormalizedEmailShape(s: string)
    ensures NoSpaceEnds(NormalizeEmail(s)) && NoUpper(NormalizeEmail(s))
  {
    var t := Trim(s);
    ToLowerSpaceEnds(t);
    ToLowerHasNoUpper(t);
  }

  /** The create rule for name and email is "a string that is not all whitespace". */
  lemma NonBlankStringIff(v: Value)
    ensures NonBlankString(v) <==> v.Str? && !AllSpace(v.s)
  {
  }

  /** Every value that passes the create rule passes the update rule ... */
  lemma CreateRuleImpliesUpdateRule(v: Value)
    requires NonBlankString(v)
    ensures NonEmptyString(v)
  {
  }

  /**
   * ... but not conversely: a non-empty all-whitespace string passes the update rule,
   * fails the create rule, and is stored as the empty string both as a name and as an e-mail.
   */
  lemma BlankStringPassesOnlyUpdateRule(ws: string)
    requires ws != [] && AllSpace(ws)
    ensures NonEmptyString(Str(ws)) && !NonBlankString(Str(ws))
    ensures Trim(ws) == [] && NormalizeEmail(ws) == []
  {
  }

  /** Normalising a normalised e-mail changes nothing. */
  lemma NormalizeEmailIdempotent(s: string)
    ensures NormalizeEmail(NormalizeEmail(s)) == NormalizeEmail(s)
  {
    var t := Trim(s);
    TrimToLowerCommute(t);
    TrimIdempotent(s);
    ToLowerIdempotent(t);
  }

  /**
   * E-mails that differ only in letter case and in surrounding whitespace have the
   * same normal form, so they collide in the uniqueness check.
   */
  lemma EmailsCollide(pre: string, a: string, post: string, b: string)
    requires AllSpace(pre) && AllSpace(post)
    requires ToLower(a) == ToLower(b)
    ensures NormalizeEmail(pre + a + post) == NormalizeEmail(b)
  {
    TrimPadded(pre, a, post);
    TrimToLowerCommute(a);
    TrimToLowerCommute(b);
  }

  /**
   * The form every handler stores a record in: age in [MinAge, MaxAge], name its own
   * trim, e-mail its own normal form. Names and e-mails may still be empty (an update
   * accepts an all-whitespace string).
   */
  predicate Normalized(u: User) {
    MinAge <= u.age <= MaxAge && NoSpaceEnds(u.name) && NoSpaceEnds(u.email) && NoUpper(u.email)
  }

  /** A normalised record is exactly one whose name is its own trim and whose e-mail is its own normal form. */
  lemma NormalizedIsFixpoint(u: User)
    requires MinAge <= u.age <= MaxAge
    ensures Normalized(u) <==> u.name == Trim(u.name) && u.email == NormalizeEmail(u.email)
  {
    TrimFixpoint(u.name);
    NormalizeEmailFixpoint(u.email);
  }

  /** The e-mails normalisation leaves unchanged are exactly those with no surrounding whitespace and no upper-case letter. */
  lemma NormalizeEmailFixpoint(s: string)
    ensures NormalizeEmail(s) == s <==> NoSpaceEnds(s) && NoUpper(s)
  {
    if NoSpaceEnds(s) && NoUpper(s) {
      TrimNoSpaceEnds(s);
      ToLowerNoUpper(s);
    }
    if NormalizeEmail(s) == s {
      NormalizedEmailShape(s);
    }
  }

  /** A body that passes the create check is stored normalised, with a non-empty name and e-mail. */
  lemma NormalizedOnCreate(b: Body)
    requires CreateFieldsOk(b)
    ensures var u := User(Trim(b.name.s), b.age.n, NormalizeEmail(b.email.s));
      Normalized(u) && u.name != [] && u.email != []
  {
    NormalizedEmailShape(b.email.s);
  }

  /** The update payload: each field is present only when it was supplied and passed its rule. */
  datatype Patch = Patch(name: Option<string>, age: Option<int>, email: Option<string>)

  /**
   * Builds the update payload one field at a time. Each field is included on its own
   * rule, independently of the others; a body that passes the create check yields
   * a payload with all three fields.
   */
  method BuildPatch(b: Body) returns (p: Patch)
    ensures p.name.Some? <==> b.name.Str? && b.name.s != []
    ensures p.name.Some? ==> p.name.value == Trim(b.name.s)
    ensures p.age.Some? <==> AgeInRange(b.age)
    ensures p.age.Some? ==> p.age.value == b.age.n
    ensures p.email.Some? <==> b.email.Str? && b.email.s != []
    ensures p.email.Some? ==> p.email.value == NormalizeEmail(b.email.s)
    ensures CreateFieldsOk(b) ==> p.name.Some? && p.age.Some? && p.email.Some?
    ensures NormalizedPatch(p)
  {
    p := Patch(None, None, None);
    if NonEmptyString(b.name) {
      p := p.(name := Some(Trim(b.name.s)));
    }
    if b.age.Num? && b.age.n >= MinAge && b.age.n <= MaxAge {
      p := p.(age := Some(b.age.n));
    }
    if NonEmptyString(b.email) {
      NormalizedEmailShape(b.email.s);
      p := p.(email := Some(NormalizeEmail(b.email.s)));
    }
  }

  /** Every field present in the payload is already in stored form. */
  predicate NormalizedPatch(p: Patch) {
    && (p.name.Some? ==> NoSpaceEnds(p.name.value))
    && (p.age.Some? ==> MinAge <= p.age.value <= MaxAge)
    && (p.email.Some? ==> NoSpaceEnds(p.email.value) && NoUpper(p.email.value))
  }

  /**
   * Writes the fields present in the payload over the record; the others keep their
   * value. A normalised record stays normalised under a normalised payload, and an
   * empty payload leaves the record as it was.
   */
  function Merge(u: User, p: Patch): (r: User)
    ensures p.name.Some? ==> r.name == p.name.value
    ensures p.name.None? ==> r.name == u.name
    ensures p.age.Some? ==> r.age == p.age.value
    ensures p.age.None? ==> r.age == u.age
    ensures p.email.Some? ==> r.email == p.email.value
    ensures p.email.None? ==> r.email == u.email
    ensures Normalized(u) && NormalizedPatch(p) ==> Normalized(r)
    ensures p == Patch(None, None, None) ==> r == u
  {
    User(
      if p.name.Some? then p.name.value else u.name,
      if p.age.Some? then p.age.value else u.age,
      if p.email.Some? then p.email.value else u.email)
  }
}
