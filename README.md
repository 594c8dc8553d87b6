# Register and login handlers of node-auth-with-jwt, in Dafny

This project models the two POST handlers of `src/routes/auth.routes.js`, `/register` and `/login`. Together they are a small sequential state machine over the User collection.

- **Register** runs the express-validator rules (name 6..255, e-mail 6..255 and an e-mail grammar, password 6..1024). It then looks the e-mail up and refuses a duplicate. Otherwise it hashes the password with bcrypt, builds and saves a User document, and signs a JWT over `{userId}` for `10h`.
- **Login** runs the e-mail and password rules and looks the e-mail up. It then compares the password with the stored hash and signs a token over the stored id.
- Every library call can throw: the awaited Mongoose and bcrypt calls, and the synchronous `jwt.sign`. Each handler catches that and answers 500 with `Something went wrong`.

Modules, one per component:

- `Wrappers` (`wrappers.dfy`): `Option`.
- `Validation` (`validation.dfy`): the validation chains as data (`Check`), `Validate` (what `validationResult(req).array()` holds), the messages, and reference predicates that write the bounds out (`RegisterBodyOk`, `LoginBodyOk`).
- `Bcrypt` (`bcrypt.dfy`): the library as a pair of functions (`hash(salt, p)`, `compare(p, h)`). `Lawful` states the two laws the handlers rely on: a hash is never the plaintext, and a password matches its own hash for every salt.
- `Jwt` (`jwt.dfy`): an uninterpreted signed token over `Claims(userId)`, the secret, `"10h"` and the clock reading.
- `Users` (`users.dfy`): the collection as a sequence of documents, `FindByEmail` (`User.findOne({email})`) and the collection invariant `WellFormed` (no two documents share an e-mail or an id).
- `AuthRoutes` (`auth_routes.dfy`):
  - the tagged `Outcome` (ValidationFailed / Conflict / NotFound / WrongCredentials / Success / ServerError);
  - `Render`, which gives each outcome's status code and JSON body;
  - the specification functions `RegisterSpec` and `LoginSpec`, with lemmas about them;
  - the class `AuthService`. Its `Register` method updates the `users` field in place. Its `Login` method has no `modifies` clause, so it cannot change the store. Both are proved against the specification functions.

Things about the code that the model makes explicit:

- **Password limit.** The password rule accepts up to 1024 characters, but its message says 1000. The model follows the code.
- **Signing failure after save.** The store also changes on a register that answers 500. The document is saved at line 41 before the token is signed at line 44. So if signing throws, the record stays stored and the caller gets a 500 (`RegisterStoreEffect`). A retry with the same e-mail is then a conflict (`RegisterSameEmailTwice`).
- **Validation status.** A validation failure answers 200 on register but 400 on login.
- **Plaintext echo.** Each validation error carries the submitted value. A refused password is therefore echoed back in the response (`RegisterRules`, `LoginRules`).
- **User enumeration.** "Can't find User with that email." and "Wrong credentials." are different messages. The response therefore tells a caller whether an e-mail is registered (`LoginUnknownEmail`, `LoginKnownEmail`).
- **Five-letter names.** A register with the five-letter name `Alice` is refused by the name rule (`ShortNameSession`).
- **Id allocation.** Document ids come from a counter `nextId` that stands for Mongoose's id generation. An id is drawn when the document is built (line 40), even if the save then fails.

Inputs the code gets from outside become parameters:

- `Config`: the bcrypt library, the `isEmail` grammar, and `JWT_SECRET`.
- `salt`: the random salt, per call.
- `now`: the clock reading stamped into the token.
- `Faults`: which library call throws during a request (findOne, hash, save, compare, sign).

## Model

| member | source | states |
|---|---|---|
| Validation.Validate | src/routes/auth.routes.js:16-25 | the error list is empty exactly when every chain accepts the body, and it has no more errors than there are chains |
| Validation.ValidateReportsFailingChecks | src/routes/auth.routes.js:24-29 | every reported error comes from a failing chain, with that chain's field, message and submitted value; every failing chain is reported |
| Validation.RegisterChecksInOrder | src/routes/auth.routes.js:16-21 | the register errors are the name-length, e-mail-length, e-mail-format and password-length chains' errors, in that order |
| Validation.LoginChecksInOrder | src/routes/auth.routes.js:65-69 | the login errors are the e-mail-length, e-mail-format and password-length chains' errors, in that order |
| Validation.RegisterRules | src/routes/auth.routes.js:17-20 | register validation passes exactly when name is 6..255, e-mail is 6..255 and well-formed, and password is 6..1024; each field is flagged exactly when its own bounds fail, with the fixed message (the password's says 1000) and the submitted value |
| Validation.LoginRules | src/routes/auth.routes.js:66-68 | login validation passes exactly when e-mail is 6..255 and well-formed and password is 6..1024; the name is never flagged |
| Bcrypt.LawfulHasherExists | src/routes/auth.routes.js:39 | the two bcrypt laws (hash differs from plaintext; a password matches its own hash for any salt) are satisfiable together |
| Users.FindByEmail | src/routes/auth.routes.js:34 | finds nothing exactly when no document has the e-mail; otherwise returns the first document with that e-mail |
| Users.FindStored | src/routes/auth.routes.js:82 | when e-mails are unique, looking up a stored e-mail returns exactly that document |
| Users.FindAfterInsert | src/routes/auth.routes.js:34-41 | after appending a document, lookups of e-mails already stored are unchanged, and the new e-mail finds the new document |
| Users.InsertKeepsWellFormed | src/routes/auth.routes.js:34-41 | appending a document with an absent e-mail and the next id keeps e-mails unique, ids unique and all ids below the counter |
| AuthRoutes.Render | src/routes/auth.routes.js:26-111 | 500 exactly for a server error, with only "Something went wrong"; 201 exactly for a register success; 400 exactly for a login validation failure; errors only for validation failures; userId and token present exactly on success, and equal to the outcome's |
| AuthRoutes.RegisterRejectsInvalidBody | src/routes/auth.routes.js:24-30 | register is a validation failure exactly when the body is out of bounds; a validation failure answers 200 with "Not correct data per register." and a non-empty error list, and changes neither the store nor the id counter |
| AuthRoutes.RegisterRejectsTakenEmail | src/routes/auth.routes.js:34-37 | register is a conflict exactly when the body is valid, the lookup does not throw and the e-mail is stored; a conflict answers 200 with "User with that email already exists." and changes nothing |
| AuthRoutes.RegisterCreatesUser | src/routes/auth.routes.js:39-54 | register succeeds exactly when the body is valid, the e-mail is new and no call throws; it then appends one document (next id, submitted name and e-mail, bcrypt hash of the password, which is not the plaintext and matches it), keeps the old documents as they were, and answers 201 with that id and a token over `{userId}` for "10h" |
| AuthRoutes.RegisterServerError | src/routes/auth.routes.js:23-58 | register answers 500 "Something went wrong" with no other detail exactly when the body is valid and either the lookup throws, or the e-mail is new and hashing, saving or signing throws |
| AuthRoutes.RegisterStoreEffect | src/routes/auth.routes.js:39-57 | the store either stays as it was or gains exactly the new document; it gains it exactly when the save ran, which is on success and also when signing then throws (a 500) |
| AuthRoutes.RegisterPreservesWellFormed | src/routes/auth.routes.js:34-41 | every register, whatever its outcome, keeps the invariant that no two documents share an e-mail or an id |
| AuthRoutes.RegisterSameEmailTwice | src/routes/auth.routes.js:34-41 | once a register has stored its document (on success, or on a 500 because signing threw after the save), a valid register with the same e-mail and a working lookup is a conflict and changes nothing |
| AuthRoutes.LoginRejectsInvalidBody | src/routes/auth.routes.js:72-78 | login is a validation failure exactly when e-mail or password is out of bounds; it answers 400 with "Not correct data per login." and does not flag the name |
| AuthRoutes.LoginIgnoresName | src/routes/auth.routes.js:65-69 | the name in a login body never changes the outcome |
| AuthRoutes.LoginUnknownEmail | src/routes/auth.routes.js:82-86 | login is "Can't find User with that email." (200) exactly when the body is valid, the lookup does not throw and no document has the e-mail |
| AuthRoutes.LoginKnownEmail | src/routes/auth.routes.js:88-105 | for a stored e-mail, login is "Wrong credentials." (200) exactly when bcrypt's compare with that document's hash is false, and succeeds exactly when it is true and nothing throws; it then answers 200 "Successfully logged In." with the document's id and a token over it |
| AuthRoutes.LoginServerError | src/routes/auth.routes.js:108-111 | login answers 500 "Something went wrong" with no detail exactly when the body is valid and either the lookup throws, or the document exists and compare throws, or it matches and signing throws |
| AuthRoutes.RegisterThenLogin | src/routes/auth.routes.js:39-105 | after a successful register, logging in with the same e-mail and password succeeds with the id the register returned |
| AuthRoutes.AuthService.constructor | src/routes/auth.routes.js:6-11 | a service starts from an empty collection with the given library, grammar and secret, and satisfies the invariant |
| AuthRoutes.AuthService.Register | src/routes/auth.routes.js:22-59 | the handler's outcome, new collection and new id counter are those of `RegisterSpec` on the old state; the response is the outcome rendered for register; the collection invariant is kept |
| AuthRoutes.AuthService.Login | src/routes/auth.routes.js:70-112 | the handler changes nothing (no modifies clause); its outcome is `LoginSpec` of the current collection and its response that outcome rendered for login |
| AuthRoutes.ShortNameRefused | src/routes/auth.routes.js:17 | the body ("Alice", "alice@x.com", "secret1") gets exactly one error, the name rule's |
| AuthRoutes.ShortNameSession | src/routes/auth.routes.js:17-30 | on a fresh service, registering the name "Alice" answers 200 with only the name error and stores nothing |
| AuthRoutes.RegisterLoginSession | src/routes/auth.routes.js:39-105 | on a fresh service, a register answers 201 with id 0, and a login with the same credentials answers 200 with the same id and a token over it |
| AuthRoutes.DuplicateRegisterSession | src/routes/auth.routes.js:34-54 | on a fresh service, a second register with the same e-mail answers 200 "User with that email already exists." |

## Left out

- Express routing and response plumbing (`Router`, `res.status().json`, `module.exports`). Only the status and the body fields of the response are kept.
- The `/verify` route (lines 116-123). Its logic is in `../middleware/auth.middleware`, and that file is not part of this model.
- bcrypt internals: the cost factor 12, the salt format, constant-time comparison, and the truncation of passwords at 72 bytes. A hasher is two functions limited only by `Lawful`.
- LoginKnownEmail: does not conclude that a password other than the registered one is refused. bcrypt only makes such a match unlikely, so `Lawful` does not assume that `compare(q, hash(s, p))` is false for `q != p`.
- JWT encoding, HMAC signing and expiry arithmetic. A token is the uninterpreted term of what was signed. Whether `jsonwebtoken` throws for a missing `JWT_SECRET` is a `Faults.sign` flag, not derived from the secret.
- The `isEmail()` grammar of express-validator. It is an opaque predicate in `Config`.
- How express-validator reads a field. It searches several request locations and converts non-strings. The model takes each field as a string that the body supplies, with a missing field read as "", and reports only `param`, `msg` and `value` of each error. It counts length in Unicode characters, as `isLength` does for surrogate pairs; unlike `isLength`, it also counts the variation selectors U+FE0E and U+FE0F, which `isLength` leaves out.
- Mongoose persistence, id generation, `dotenv` and `console.log`. Ids come from a counter. A failing save inserts nothing. A log line has no effect on the response.
- Concurrency and the check-then-insert race between lines 34 and 41. The model is sequential, so two registrations cannot interleave.
