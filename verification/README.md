# User registry request rules, modelled in Dafny

The registry is a small REST backend over a single "user" entity (name, age,
e-mail). Its only real logic sits in the handlers of `/usuarios`:

- POST validates the body (name and e-mail non-blank strings, age a number in
  [0, 120]), normalises it (name trimmed, e-mail trimmed and lower-cased),
  refuses an e-mail some record already holds, and stores the new record.
- PUT checks the `:id` with the database driver's identifier check, looks the
  record up, refuses an e-mail held by *another* record, and writes a partial
  update. The update is built field by field, each field on its own rule.
- DELETE checks the identifier, looks the record up and removes it.
- GET returns every record.

This project models those rules over an abstract store. The store is a map from
identifier to record. Each request runs atomically against it. The store
invariant is:

- no two records share an e-mail;
- every stored record is in stored form: age in [0, 120], no whitespace at
  either end of the name or the e-mail, and no upper-case letter in the e-mail;
- every stored identifier has been issued by the store.

Every handler preserves the invariant, and so does any sequence of requests.
A record added while a sequence of requests is served is stored under an
identifier that had never been issued before the sequence started.

Files:

- `Text.dfy` (module `Text`): ASCII `trim` and `toLowerCase`, with their laws.
  Trim is idempotent and ignores surrounding whitespace. Lower-casing is
  idempotent and commutes with trimming.
- `Rules.dfy` (module `Rules`): the dynamically typed body field (`Value`:
  absent, string, number, or another value with its JavaScript truthiness),
  the field rules of POST and PUT, e-mail normalisation, and the PUT payload
  builder `BuildPatch`.
- `Store.dfy` (module `UserStore`): class `Store`, with the handlers `Create`,
  `Update` and `Delete`, the persistence reads `FindMany`, `FindFirstById` and
  `FindUniqueByEmail`, and the router `Handle` / `Serve`.
- `Scenarios.dfy` (module `Scenarios`): client runs on a fresh store that use
  only the handlers' contracts.

POST refuses a blank name or e-mail (`server.js:29-31`). The PUT rules
(`server.js:86`, `server.js:88`) only ask for a non-empty string, and they test
it before trimming. So the store can hold an empty name or e-mail: a PUT whose
name is only spaces stores the empty name, and the same holds for the e-mail.
`Rules.BlankStringPassesOnlyUpdateRule` and `Scenarios.UpdateBlankName` state
this. The store invariant therefore does not include "names are non-blank".

The PUT handler reads `email.trim()` whenever the e-mail is truthy
(`server.js:76-77`). A truthy e-mail that is not a string (a number, `true`, an
object) makes that call throw. The handler's catch block then answers 500. The
model keeps this path: `Update` answers `ServerError` and leaves the store
unchanged.

## Model

| member | source | states |
|---|---|---|
| `Text.TrimStart` | server.js:50 | result is a suffix of the input, the dropped prefix is all whitespace, and the result does not start with whitespace |
| `Text.TrimEnd` | server.js:50 | result is a prefix of the input, the dropped suffix is all whitespace, and the result does not end with whitespace |
| `Text.Trim` | server.js:30-31 | `trim` result has no whitespace at either end and is empty exactly when the input is all whitespace |
| `Text.TrimCutsWhitespace` | server.js:30-31 | `trim` result is the piece of the input at some offset with only whitespace before and after it |
| `Text.TrimFixpoint` | server.js:50 | `trim` leaves a string unchanged exactly when it has no whitespace at either end |
| `Text.TrimIdempotent` | server.js:50 | trimming a trimmed name changes nothing |
| `Text.TrimPadded` | server.js:37 | whitespace around a string never changes its trim |
| `Text.Lower` | server.js:37 | lower-casing a character moves only 'A'..'Z', leaves no upper-case letter and keeps whitespace as whitespace |
| `Text.ToLower` | server.js:37 | `toLowerCase` keeps the length |
| `Text.ToLowerChars` | server.js:37 | `toLowerCase` moves each 'A'..'Z' to its lower-case letter and keeps every other character |
| `Text.ToLowerHasNoUpper` | server.js:37 | `toLowerCase` leaves no upper-case letter |
| `Text.ToLowerSpaceEnds` | server.js:37 | lower-casing a string with no whitespace at either end gives one with none either |
| `Text.ToLowerNoUpper` | server.js:37 | a string with no upper-case letter is its own lower-case form |
| `Text.ToLowerIdempotent` | server.js:37 | lower-casing twice is lower-casing once |
| `Text.TrimToLowerCommute` | server.js:37 | `trim` then `toLowerCase` equals `toLowerCase` then `trim` |
| `Rules.NormalizeEmail` | server.js:37 | the normalised e-mail is no longer than the input and is empty exactly when the input is all whitespace |
| `Rules.NormalizeEmailCutsAndLowers` | server.js:37 | the normalised e-mail is the lower-cased piece of the input at some offset with only whitespace before and after it |
| `Rules.NormalizedEmailShape` | server.js:37 | a normalised e-mail has no surrounding whitespace and no upper-case ASCII letter |
| `Rules.NormalizeEmailFixpoint` | server.js:37 | normalisation leaves an e-mail unchanged exactly when it has no surrounding whitespace and no upper-case letter |
| `Rules.NormalizeEmailIdempotent` | server.js:37 | normalising a normalised e-mail changes nothing |
| `Rules.EmailsCollide` | server.js:37-46 | e-mails differing only in letter case and surrounding whitespace have the same normal form, so they collide |
| `Rules.Truthy` | server.js:30-31 | JavaScript truthiness of a body field: a missing field, the empty string and the number 0 are falsy |
| `Rules.NonBlankString` | server.js:30-31 | POST rule for name and e-mail: a truthy string whose trim is non-empty |
| `Rules.AgeInRange` | server.js:32 | age rule of POST and PUT: a number in [0, 120], both ends included |
| `Rules.CreateFieldsOk` | server.js:29-33 | the whole POST check: name and e-mail pass their rule and the age is in range |
| `Rules.NonEmptyString` | server.js:86 | PUT rule for name and e-mail: a truthy string, tested before trimming |
| `Rules.NonBlankStringIff` | server.js:29-31 | the POST rule for name and e-mail holds exactly for a string that is not all whitespace |
| `Rules.CreateRuleImpliesUpdateRule` | server.js:86-88 | every name or e-mail POST accepts also passes the PUT rule |
| `Rules.BlankStringPassesOnlyUpdateRule` | server.js:86-88 | an all-whitespace string fails the POST rule, passes the PUT rule and is stored as the empty name or e-mail |
| `Rules.NormalizedIsFixpoint` | server.js:50 | for an age in range, a record is in stored form exactly when its name is its own trim and its e-mail its own normal form |
| `Rules.NormalizedOnCreate` | server.js:49-51 | the record POST stores from a valid body is in stored form, with a non-empty name and e-mail |
| `Rules.BuildPatch` | server.js:85-88 | the payload holds each field exactly when it passes its own rule: trimmed name, age in [0,120], normalised e-mail; every field present is in stored form; a body valid for POST gives all three |
| `Rules.Merge` | server.js:90-93 | the partial write sets each field present in the payload to its value and keeps every absent field; it keeps a record in stored form under a payload in stored form, and an empty payload leaves the record as it was |
| `UserStore.Store.constructor` | server.js:7 | a new store is empty, has issued no identifier and satisfies the invariant |
| `UserStore.Store.FindMany` | server.js:13-16 | GET returns every stored record with its identifier |
| `UserStore.Store.FindFirstById` | server.js:70-73 | the lookup finds a record exactly when one is stored under the identifier, and returns that record |
| `UserStore.Store.FindUniqueByEmail` | server.js:40-42 | the lookup returns a record holding the e-mail, and returns none exactly when no record holds it |
| `UserStore.Store.Insert` | server.js:49-51 | storing a record in stored form whose e-mail nobody holds adds exactly it, under an identifier never issued before, and keeps the invariant |
| `UserStore.Store.Create` | server.js:24-53 | 400 unless name and e-mail are non-blank strings and age is in [0,120]; then 409 when a record holds the normalised e-mail; otherwise 201 with one new record under a never-issued identifier, other records unchanged; invariant kept, the new record in stored form |
| `UserStore.Store.CheckEmail` | server.js:75-82 | for an update of `id`: 500 for a truthy non-string e-mail, 409 exactly when a non-empty string e-mail normalises to one held by another record, nothing otherwise (with the `:id` spelled as the stored identifier, a record's own e-mail never conflicts) |
| `UserStore.Store.Update` | server.js:61-95 | 400 for a rejected identifier, then 404 for an unknown one, then 500 or 409 from the e-mail check, each with the store unchanged; otherwise 200, only the target record changes, and each field changes only when it passes its rule; invariant kept, the record staying in stored form |
| `UserStore.Store.Delete` | server.js:103-117 | 400 for a rejected identifier, then 404 for an unknown one, both with the store unchanged; otherwise 200 and exactly that record removed |
| `UserStore.Store.Handle` | server.js:12-122 | routes a request to its handler; GET answers 200 without change; only POST answers 201 and only PUT answers 500; a record it adds has a never-issued identifier; invariant kept |
| `UserStore.Store.Serve` | server.js:12-122 | across any sequence of requests the invariant holds (unique e-mails, records in stored form), and every record added during the sequence has an identifier not issued before the sequence started |
| `UserStore.ReplacePreservesUnique` | server.js:76-93 | rewriting one record keeps e-mails unique when its new e-mail is its own or is held by no other record |
| `UserStore.StorePreservesNormalized` | server.js:49-51 | writing a record in stored form, as a new record or over an old one, keeps every record in stored form |
| `UserStore.InsertPreservesUnique` | server.js:40-51 | inserting under a new identifier keeps e-mails unique when no record holds the new e-mail |
| `UserStore.HolderIsAlone` | server.js:78-79 | with unique e-mails, the record holding an e-mail is the only one, so a match on the target itself is no conflict |
| `UserStore.UnissuedIdExists` | server.js:49-51 | the store can always assign an identifier it has never issued |
| `Scenarios.CreateThenDuplicate` | server.js:29-53 | two valid POSTs whose e-mails normalise alike: 201 then 409, and the store holds only the first record, normalised |
| `Scenarios.AnaScenario` | server.js:37-53 | POST " Ana ", 30, "ANA@X.com" stores ("Ana", 30, "ana@x.com"); a later POST with "ana@X.COM" answers 409 |
| `Scenarios.NegativeAgeRejected` | server.js:29-35 | POST with age -1 answers 400 and stores nothing |
| `Scenarios.UpdateToOthersEmail` | server.js:76-82 | PUT with an e-mail that another record holds answers 409 and changes nothing |
| `Scenarios.UpdateOwnEmail` | server.js:76-93 | PUT with no e-mail, or with the record's own e-mail in any case or padding, answers 200 and keeps the e-mail |
| `Scenarios.UpdateNothingPasses` | server.js:85-95 | PUT whose only field is an out-of-range age answers 200 and leaves the record exactly as it was |
| `Scenarios.UpdateBlankName` | server.js:86 | PUT with an all-whitespace name answers 200 and stores the empty name, which POST would refuse |
| `Scenarios.DeleteTwice` | server.js:107-117 | deleting a stored record answers 200 and empties the store; deleting it again answers 404 |

## Left out

- Web framework glue: CORS, JSON body parsing, `app.listen` and console logging (`server.js:1-10`, `124-128`). The model starts from a destructured body and returns a status.
- Response bodies: the messages and the JSON wrapping of the record are not modelled. Handlers return the status and, for POST and PUT, the stored record.
- Persistence failures: the 500 answers for exceptions raised by the database client (`server.js:17-20`, `54-57`, `96-99`, `118-121`) are not modelled. The only 500 kept is the `trim` call on a truthy non-string e-mail in PUT.
- Concurrency: each request is atomic. The read-then-write gap between the e-mail lookup and the insert or update, and the race between concurrent requests, are out of scope.
- The database's own unique index on e-mail is not modelled. The model instead proves that the handlers' checks alone keep e-mails unique.
- `ObjectId.isValid` is an arbitrary predicate fixed when the store is built. Its format rules belong to the database driver, which is not part of this model.
- Identifiers: the `:id` is taken to be spelled exactly as the stored identifier, so the lookup at `server.js:70` and the `!==` test at `server.js:79` use the same equality and the target itself never counts as a conflict. A spelling the driver accepts and resolves to the target but stores differently (such as upper-case hex) is not modelled; in the source it turns the target's own e-mail into a 409.
- Identifier generation: a new record gets some identifier the store has never issued. ObjectId structure (timestamp, counter) is not modelled, and nothing here forces a new identifier to pass `ObjectId.isValid`.
- Numbers: ages are integers. NaN, which passes the range test at `server.js:32`, and fractional ages are not modelled. Neither is truthiness of NaN.
- Unicode: `trim` strips only the six ASCII whitespace characters, and `toLowerCase` lowers only 'A'..'Z'.
- The frontend (`src/pages/ListUsers/index.jsx`, `src/services/api.js`) is not part of this model. It is React rendering and an HTTP client setup.
- UserStore.Store.Handle: its contract states only the invariant, the GET answer, and which routes can answer 201 and 500. Each route's full contract is on `Create`, `Update` and `Delete`.
- UserStore.Store.Serve: its contract states the invariant, which requests can answer 201 and that added records get never-issued identifiers, not each request's individual effect. For a record present at the start it does not rule out a delete followed by a re-create under the same identifier; only `Create`'s contract, which never picks an issued identifier, rules that out.
- Scenarios.UpdateToOthersEmail: it states that the store is unchanged, but not how many records it holds.
