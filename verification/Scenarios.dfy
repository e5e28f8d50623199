/**
 * Client runs of the `/usuarios` routes on a fresh store, reasoning only from the
 * handlers' contracts. The driver's identifier check accepts every identifier in
 * these runs, so the identifiers the store hands out can be used in later requests.
 */
module Scenarios {
  import opened Text
  import opened Rules
  import opened UserStore

  lemma SingletonMap(m: map<Id, User>, id: Id, u: User)
    requires m == map[id := u]
    ensures m.Values == {u} && |m| == 1
  {
    assert m.Keys == {id};
  }

  /**
   * Two valid POSTs whose e-mails normalise alike: the first is stored as its
   * normalised record, the second is a conflict, and the store ends holding exactly
   * the first record.
   */
  method CreateThenDuplicate(first: Body, second: Body) returns (s1: Status, s2: Status, stored: map<Id, User>)
    requires CreateFieldsOk(first) && CreateFieldsOk(second)
    requires NormalizeEmail(second.email.s) == NormalizeEmail(first.email.s)
    ensures s1 == Created && s2 == Conflict
    ensures |stored| == 1
    ensures stored.Values == {User(Trim(first.name.s), first.age.n, NormalizeEmail(first.email.s))}
  {
    var store := new Store(_ => true);
    var c1, c2;
    s1, c1 := store.Create(first);
    var id, user := c1.value.0, c1.value.1;
    ghost var afterFirst := store.users;
    assert afterFirst == map[id := user];
    assert EmailTaken(afterFirst, NormalizeEmail(second.email.s)) by {
      assert afterFirst[id].email == NormalizeEmail(first.email.s);
    }
    s2, c2 := store.Create(second);
    assert store.users == afterFirst;
    stored := store.FindMany();
    SingletonMap(stored, id, user);
  }

  lemma AnaNameTrimmed()
    ensures Trim(" Ana ") == "Ana"
  {
    TrimNoSpaceEnds("Ana");
    assert " Ana " == " " + "Ana" + " ";
    TrimPadded(" ", "Ana", " ");
  }

  lemma AnaEmailNormalized()
    ensures NormalizeEmail("ANA@X.com") == "ana@x.com"
  {
    TrimNoSpaceEnds("ANA@X.com");
    var l := ToLower("ANA@X.com");
    forall i | 0 <= i < |l| ensures l[i] == "ana@x.com"[i] {
      assert l[i] == Lower("ANA@X.com"[i]);
    }
  }

  lemma ShoutedAnaEmailNormalized()
    ensures NormalizeEmail("ana@X.COM") == "ana@x.com"
  {
    TrimNoSpaceEnds("ana@X.COM");
    var l := ToLower("ana@X.COM");
    forall i | 0 <= i < |l| ensures l[i] == "ana@x.com"[i] {
      assert l[i] == Lower("ana@X.COM"[i]);
    }
  }

  lemma AnaNameNonBlank() ensures NonBlankString(Str(" Ana ")) { AnaNameTrimmed(); }
  lemma AnaEmailNonBlank() ensures NonBlankString(Str("ANA@X.com")) { }
  lemma BobNameNonBlank() ensures NonBlankString(Str("Bob")) { }
  lemma ShoutedEmailNonBlank() ensures NonBlankString(Str("ana@X.COM")) { }

  lemma AnaBodyValid()
    ensures CreateFieldsOk(Body(Str(" Ana "), Num(30), Str("ANA@X.com")))
  {
    AnaNameNonBlank();
    AnaEmailNonBlank();
  }

  lemma BobBodyValid()
    ensures CreateFieldsOk(Body(Str("Bob"), Num(41), Str("ana@X.COM")))
  {
    BobNameNonBlank();
    ShoutedEmailNonBlank();
  }

  /**
   * POST {name: " Ana ", age: 30, email: "ANA@X.com"} is stored as ("Ana", 30,
   * "ana@x.com"); a later POST with "ana@X.COM" is a conflict.
   */
  method AnaScenario() returns (s1: Status, s2: Status, stored: map<Id, User>)
    ensures s1 == Created && s2 == Conflict
    ensures stored.Values == {User("Ana", 30, "ana@x.com")}
  {
    var ana := Body(Str(" Ana "), Num(30), Str("ANA@X.com"));
    var bob := Body(Str("Bob"), Num(41), Str("ana@X.COM"));
    AnaBodyValid();
    BobBodyValid();
    AnaNameTrimmed();
    AnaEmailNormalized();
    ShoutedAnaEmailNormalized();
    s1, s2, stored := CreateThenDuplicate(ana, bob);
  }

  /** POST with age -1 is rejected and nothing is stored. */
  method NegativeAgeRejected() returns (status: Status, stored: map<Id, User>)
    ensures status == BadRequest && stored == map[]
  {
    var store := new Store(_ => true);
    var created;
    status, created := store.Create(Body(Str("Ana"), Num(-1), Str("ana@x.com")));
    stored := store.FindMany();
  }

  /**
   * With two records stored, a PUT on the first carrying an e-mail that normalises
   * to the second's is a conflict and leaves both records as they were.
   */
  method UpdateToOthersEmail(a: Body, b: Body, change: Body) returns (status: Status, before: map<Id, User>, after: map<Id, User>)
    requires CreateFieldsOk(a) && CreateFieldsOk(b)
    requires NormalizeEmail(a.email.s) != NormalizeEmail(b.email.s)
    requires NonEmptyString(change.email) && NormalizeEmail(change.email.s) == NormalizeEmail(b.email.s)
    ensures status == Conflict && after == before
  {
    var store, idA, idB := TwoRecords(a, b);
    assert EmailTakenByOther(store.users, NormalizeEmail(change.email.s), idA) by {
      assert store.users[idB].email == NormalizeEmail(change.email.s);
    }
    before := store.FindMany();
    var updated;
    status, updated := store.Update(idA, change);
    after := store.FindMany();
  }

  /** A fresh store after two successful POSTs with different e-mails. */
  method TwoRecords(a: Body, b: Body) returns (store: Store, idA: Id, idB: Id)
    requires CreateFieldsOk(a) && CreateFieldsOk(b)
    requires NormalizeEmail(a.email.s) != NormalizeEmail(b.email.s)
    ensures fresh(store) && store.Valid() && store.IsValidId(idA)
    ensures idA != idB && idA in store.users && idB in store.users
    ensures store.users[idA].email == NormalizeEmail(a.email.s)
    ensures store.users[idB].email == NormalizeEmail(b.email.s)
  {
    store := new Store(_ => true);
    var sa, ca := store.Create(a);
    idA := ca.value.0;
    ghost var first := store.users;
    assert first == map[idA := ca.value.1];
    assert !EmailTaken(first, NormalizeEmail(b.email.s));
    var sb, cb := store.Create(b);
    idB := cb.value.0;
  }

  /**
   * A PUT that leaves out the e-mail, or repeats the record's own e-mail in any case
   * or padding, never conflicts: it answers 200 and keeps the stored e-mail.
   */
  method UpdateOwnEmail(a: Body, change: Body) returns (status: Status, before: User, after: User)
    requires CreateFieldsOk(a)
    requires !Truthy(change.email) || (change.email.Str? && NormalizeEmail(change.email.s) == NormalizeEmail(a.email.s))
    ensures status == Ok && after.email == before.email
  {
    var store := new Store(_ => true);
    var sa, ca := store.Create(a);
    var id := ca.value.0;
    before := ca.value.1;
    assert store.users == map[id := before];
    var updated;
    status, updated := store.Update(id, change);
    after := updated.value;
  }

  /**
   * A PUT in which no field passes its rule (an age out of range, nothing else)
   * answers 200 and leaves the record exactly as it was.
   */
  method UpdateNothingPasses(a: Body, age: int) returns (status: Status, before: User, after: User)
    requires CreateFieldsOk(a)
    requires age < MinAge || age > MaxAge
    ensures status == Ok && after == before
  {
    var store := new Store(_ => true);
    var sa, ca := store.Create(a);
    var id := ca.value.0;
    before := ca.value.1;
    var updated;
    status, updated := store.Update(id, Body(Absent, Num(age), Absent));
    after := updated.value;
  }

  /**
   * The update rule for names is weaker than the create rule: a PUT whose name is
   * only whitespace answers 200 and stores the empty name, which POST never stores.
   */
  method UpdateBlankName(a: Body, ws: string) returns (status: Status, after: User)
    requires CreateFieldsOk(a)
    requires ws != [] && AllSpace(ws)
    ensures status == Ok && after.name == []
    ensures !CreateFieldsOk(a.(name := Str(ws)))
  {
    BlankStringPassesOnlyUpdateRule(ws);
    var store := new Store(_ => true);
    var sa, ca := store.Create(a);
    var id := ca.value.0;
    var updated;
    status, updated := store.Update(id, Body(Str(ws), Absent, Absent));
    after := updated.value;
  }

  /** Deleting a stored record answers 200 and empties the store; deleting it again answers 404. */
  method DeleteTwice(a: Body) returns (s1: Status, s2: Status, stored: map<Id, User>)
    requires CreateFieldsOk(a)
    ensures s1 == Ok && s2 == NotFound && stored == map[]
  {
    var store, id := OneRecord(a);
    s1 := store.Delete(id);
    assert store.users == map[];
    s2 := store.Delete(id);
    stored := store.FindMany();
  }

  /** A fresh store after one successful POST. */
  method OneRecord(a: Body) returns (store: Store, id: Id)
    requires CreateFieldsOk(a)
    ensures fresh(store) && store.Valid() && store.IsValidId(id)
    ensures store.users.Keys == {id}
  {
    store := new Store(_ => true);
    var sa, ca := store.Create(a);
    id := ca.value.0;
    assert store.users == map[id := ca.value.1];
  }
}
