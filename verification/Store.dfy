/**
 * The `/usuarios` routes over an abstract persistence store. The store is a map
 * from identifier to user record; each request runs atomically against it. The
 * identifier check of the database driver (`ObjectId.isValid`) is an arbitrary
 * predicate fixed when the store is built, and new identifiers are chosen by the
 * store among those it has never issued.
 */
module UserStore {
  import opened Text
  import opened Rules

  type Id = string

  /**
   * The HTTP statuses the handlers answer with: 200 Ok, 201 Created, 400 BadRequest,
   * 404 NotFound, 409 Conflict and 500 ServerError.
   */
  datatype Status = Ok | Created | BadRequest | NotFound | Conflict | ServerError

  /** Some stored record holds e-mail `e`. */
  predicate EmailTaken(users: map<Id, User>, e: string) {
    exists k :: k in users && users[k].email == e
  }

  /** Some record other than `id` holds e-mail `e`. */
  predicate EmailTakenByOther(users: map<Id, User>, e: string, id: Id) {
    exists k :: k in users && k != id && users[k].email == e
  }

  /** No two stored records share an e-mail. */
  predicate UniqueEmails(users: map<Id, User>) {
    forall j, k :: j in users && k in users && j != k ==> users[j].email != users[k].email
  }

  /**
   * Replacing one record keeps e-mails unique when its new e-mail is its old one or
   * is held by no other record.
   */
  lemma ReplacePreservesUnique(users: map<Id, User>, id: Id, u: User)
    requires UniqueEmails(users) && id in users
    requires u.email == users[id].email || !EmailTakenByOther(users, u.email, id)
    ensures UniqueEmails(users[id := u])
  {
  }

  /** Under unique e-mails, the record holding `e` is the only one: nobody else holds it. */
  lemma HolderIsAlone(users: map<Id, User>, e: string, id: Id)
    requires UniqueEmails(users) && id in users && users[id].email == e
    ensures !EmailTakenByOther(users, e, id)
  {
  }

  /** Adding a record under a new key keeps e-mails unique when no record holds its e-mail. */
  lemma InsertPreservesUnique(users: map<Id, User>, id: Id, u: User)
    requires UniqueEmails(users) && id !in users && !EmailTaken(users, u.email)
    ensures UniqueEmails(users[id := u])
  {
  }

  /** Every stored record is in stored form. */
  predicate AllNormalized(users: map<Id, User>) {
    forall k :: k in users ==> Normalized(users[k])
  }

  /** Storing a record in stored form, under a new key or over an old one, keeps every record in stored form. */
  lemma StorePreservesNormalized(users: map<Id, User>, id: Id, u: User)
    requires AllNormalized(users) && Normalized(u)
    ensures AllNormalized(users[id := u])
  {
  }

  /** A bound on the length of every identifier in `ids`. */
  ghost function MaxLength(ids: set<Id>): (m: nat)
    ensures forall x :: x in ids ==> |x| <= m
  {
    if ids == {} then 0
    else
      var x :| x in ids;
      var rest := MaxLength(ids - {x});
      if |x| > rest then |x| else rest
  }

  /** However many identifiers have been issued, there is one that has not. */
  lemma UnissuedIdExists(ids: set<Id>) returns (id: Id)
    ensures id !in ids
  {
    id := seq(MaxLength(ids) + 1, _ => 'a');
  }

  /** A request as routed by the web framework. */
  datatype Request = List | Post(body: Body) | Put(id: Id, body: Body) | Remove(id: Id)

  class Store {
    /** The driver's identifier check, applied to the `:id` path parameter. */
    const IsValidId: Id -> bool
    /** The stored records. */
    var users: map<Id, User>
    /** Every identifier the store has ever assigned; it only grows, so no identifier is reused. */
    var issued: set<Id>

    ghost predicate Valid()
      reads this
    {
      && users.Keys <= issued
      && UniqueEmails(users)
      && AllNormalized(users)
    }

    constructor (isValidId: Id -> bool)
      ensures Valid()
      ensures IsValidId == isValidId && users == map[] && issued == {}
    {
      IsValidId := isValidId;
      users := map[];
      issued := {};
    }

    /** `findMany`: every stored record with its identifier. */
    method FindMany() returns (all: map<Id, User>)
      ensures all == users
    {
      all := users;
    }

    /** `findFirst` by identifier: the record stored under `id`, if any. */
    method FindFirstById(id: Id) returns (found: Option<User>)
      ensures found.Some? <==> id in users
      ensures found.Some? ==> found.value == users[id]
    {
      if id in users {
        found := Some(users[id]);
      } else {
        found := None;
      }
    }

    /** `findUnique` by e-mail: the identifier of a record holding `e`, if there is one. */
    method FindUniqueByEmail(e: string) returns (found: Option<Id>)
      ensures found.Some? ==> found.value in users && users[found.value].email == e
      ensures found.None? <==> !EmailTaken(users, e)
    {
      if k :| k in users && users[k].email == e {
        found := Some(k);
      } else {
        found := None;
      }
    }

    /**
     * POST /usuarios. 400 when the body fails the create check, 409 when a record
     * already holds the normalised e-mail, otherwise 201 and exactly one new record
     * under a never-issued identifier, every existing record unchanged.
     */
    method Create(body: Body) returns (status: Status, created: Option<(Id, User)>)
      requires Valid()
      modifies this
      ensures Valid() && old(issued) <= issued
      ensures status == Created || status == BadRequest || status == Conflict
      ensures status == BadRequest <==> !CreateFieldsOk(body)
      ensures status == Conflict <==>
                CreateFieldsOk(body) && EmailTaken(old(users), NormalizeEmail(body.email.s))
      ensures status != Created ==> users == old(users) && issued == old(issued) && created == None
      ensures status == Created ==>
                && created.Some?
                && created.value.0 !in old(issued)
                && issued == old(issued) + {created.value.0}
                && created.value.1 == User(Trim(body.name.s), body.age.n, NormalizeEmail(body.email.s))
                && users == old(users)[created.value.0 := created.value.1]
    {
      if !CreateFieldsOk(body) {
        return BadRequest, None;
      }
      var email := NormalizeEmail(body.email.s);
      var existing := FindUniqueByEmail(email);
      if existing.Some? {
        return Conflict, None;
      }
      var user := User(Trim(body.name.s), body.age.n, email);
      NormalizedOnCreate(body);
      var id := Insert(user);
      return Created, Some((id, user));
    }

    /**
     * `create`: stores a record in stored form, whose e-mail no record holds, under an
     * identifier never issued before. The choice of identifier stands for the
     * database driver's identifier generator: it is stated by what it guarantees
     * (never issued before), not by an algorithm, so this method is meant for
     * verification only and is not compilable as written.
     */
    method Insert(user: User) returns (id: Id)
      requires Valid() && Normalized(user) && !EmailTaken(users, user.email)
      modifies this
      ensures Valid()
      ensures id !in old(issued) && issued == old(issued) + {id}
      ensures users == old(users)[id := user]
    {
      ghost var unissued := UnissuedIdExists(issued);
      id :| id !in issued;
      StorePreservesNormalized(users, id, user);
      InsertPreservesUnique(users, id, user);
      users := users[id := user];
      issued := issued + {id};
    }

    /**
     * PUT /usuarios/:id. 400 for an identifier the driver rejects, then 404 for an
     * unknown one. A truthy e-mail that is not a string makes `trim` throw (500). A
     * string e-mail held by another record is a conflict (409); held by the target
     * itself it is not. Otherwise 200, and only the target record changes, each field
     * on its own rule.
     */
    method Update(id: Id, body: Body) returns (status: Status, updated: Option<User>)
      requires Valid()
      modifies this`users
      ensures Valid()
      ensures status == Ok || status == BadRequest || status == NotFound
           || status == Conflict || status == ServerError
      ensures status == BadRequest <==> !IsValidId(id)
      ensures status == NotFound <==> IsValidId(id) && id !in old(users)
      ensures status == ServerError <==>
                IsValidId(id) && id in old(users) && Truthy(body.email) && !body.email.Str?
      ensures status == Conflict <==>
                && IsValidId(id) && id in old(users) && NonEmptyString(body.email)
                && EmailTakenByOther(old(users), NormalizeEmail(body.email.s), id)
      ensures status != Ok ==> users == old(users) && updated == None
      ensures status == Ok ==>
                && id in old(users) && users.Keys == old(users).Keys
                && (forall k :: k in users && k != id ==> users[k] == old(users)[k])
                && updated == Some(users[id])
      ensures status == Ok ==>
                users[id].name == if NonEmptyString(body.name) then Trim(body.name.s) else old(users)[id].name
      ensures status == Ok ==>
                users[id].age == if AgeInRange(body.age) then body.age.n else old(users)[id].age
      ensures status == Ok ==>
                users[id].email == if NonEmptyString(body.email) then NormalizeEmail(body.email.s) else old(users)[id].email
    {
      if !IsValidId(id) {
        return BadRequest, None;
      }
      var current := FindFirstById(id);
      if current.None? {
        return NotFound, None;
      }
      var verdict := CheckEmail(id, body.email);
      if verdict.Some? {
        return verdict.value, None;
      }
      var patch := BuildPatch(body);
      var user := Merge(current.value, patch);
      assert user.name == if NonEmptyString(body.name) then Trim(body.name.s) else current.value.name;
      assert user.age == if AgeInRange(body.age) then body.age.n else current.value.age;
      assert user.email == if NonEmptyString(body.email) then NormalizeEmail(body.email.s) else current.value.email;
      StorePreservesNormalized(users, id, user);
      ReplacePreservesUnique(users, id, user);
      users := users[id := user];
      return Ok, Some(user);
    }

    /**
     * The e-mail step of an update of record `id`: nothing to check when the e-mail is
     * falsy; a truthy non-string makes `email.trim` throw (500); a string whose
     * normalised form is held by another record is a conflict (409), while one held by
     * `id` itself is not.
     */
    method CheckEmail(id: Id, email: Value) returns (verdict: Option<Status>)
      requires UniqueEmails(users) && id in users
      ensures verdict == None || verdict == Some(ServerError) || verdict == Some(Conflict)
      ensures verdict == Some(ServerError) <==> Truthy(email) && !email.Str?
      ensures verdict == Some(Conflict) <==>
                NonEmptyString(email) && EmailTakenByOther(users, NormalizeEmail(email.s), id)
    {
      if !Truthy(email) {
        return None;
      }
      if !email.Str? {
        // `email.trim` is not a function: the handler's catch answers 500
        return Some(ServerError);
      }
      var normalized := NormalizeEmail(email.s);
      var holder := FindUniqueByEmail(normalized);
      if holder.Some? && holder.value != id {
        return Some(Conflict);
      }
      if holder.Some? {
        HolderIsAlone(users, normalized, id);
      }
      return None;
    }

    /**
     * DELETE /usuarios/:id. 400 for an identifier the driver rejects, then 404 for an
     * unknown one, otherwise 200 and exactly that record removed.
     */
    method Delete(id: Id) returns (status: Status)
      requires Valid()
      modifies this`users
      ensures Valid()
      ensures status == Ok || status == BadRequest || status == NotFound
      ensures status == BadRequest <==> !IsValidId(id)
      ensures status == NotFound <==> IsValidId(id) && id !in old(users)
      ensures status == Ok ==> users == old(users) - {id}
      ensures status != Ok ==> users == old(users)
    {
      if !IsValidId(id) {
        return BadRequest;
      }
      var current := FindFirstById(id);
      if current.None? {
        return NotFound;
      }
      users := users - {id};
      return Ok;
    }

    /** Routes one request to its handler; GET /usuarios always answers 200. */
    method Handle(req: Request) returns (status: Status)
      requires Valid()
      modifies this
      ensures Valid() && old(issued) <= issued
      ensures forall k :: k in users && k !in old(users) ==> k !in old(issued)
      ensures req.List? ==> status == Ok && users == old(users)
      ensures status == Created ==> req.Post?
      ensures status == ServerError ==> req.Put?
    {
      match req
      case List =>
        var all := FindMany();
        status := Ok;
      case Post(body) =>
        var created;
        status, created := Create(body);
      case Put(id, body) =>
        var updated;
        status, updated := Update(id, body);
      case Remove(id) =>
        status := Delete(id);
    }

    /**
     * Serves requests one after another. Whatever the sequence, the invariant holds
     * after it (no two stored records share an e-mail, every record is in stored form),
     * and a record added during the sequence is stored under an identifier not issued
     * before the sequence started.
     */
    method Serve(reqs: seq<Request>) returns (statuses: seq<Status>)
      requires Valid()
      modifies this
      ensures Valid() && old(issued) <= issued
      ensures forall k :: k in users && k !in old(users) ==> k !in old(issued)
      ensures |statuses| == |reqs|
      ensures forall i :: 0 <= i < |reqs| && statuses[i] == Created ==> reqs[i].Post?
    {
      statuses := [];
      for i := 0 to |reqs|
        invariant Valid() && old(issued) <= issued
        invariant forall k :: k in users && k !in old(users) ==> k !in old(issued)
        invariant |statuses| == i
        invariant forall j :: 0 <= j < i && statuses[j] == Created ==> reqs[j].Post?
      {
        var status := Handle(reqs[i]);
        statuses := statuses + [status];
      }
    }
  }
}
