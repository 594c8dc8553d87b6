/**
 * The POST /register and POST /login handlers of src/routes/auth.routes.js
 * as a state machine over the User collection. Each request ends in one
 * tagged outcome; `Render` turns it into the status code and JSON body the
 * handler sends.
 */
module AuthRoutes {
  import opened Wrappers
  import opened Validation
  import opened Bcrypt
  import opened Jwt
  import opened Users

  /**
   * What the handlers use but do not compute: the bcrypt library,
   * express-validator's `isEmail` grammar, and `process.env.JWT_SECRET`.
   */
  datatype Config = Config(bcrypt: Hasher, isEmail: string -> bool, secret: string)

  /**
   * Which library call throws during one request (the awaited Mongoose and
   * bcrypt calls, and the synchronous `jwt.sign`); every such throw lands in
   * the handler's `catch` block.
   */
  datatype Faults = Faults(findOne: bool, hash: bool, save: bool, compare: bool, sign: bool)

  const NoFaults := Faults(false, false, false, false, false)

  /** The ways a request can end. */
  datatype Outcome =
    | ValidationFailed(errors: seq<FieldError>)
    | Conflict
    | NotFound
    | WrongCredentials
    | Success(userId: UserId, token: Token)
    | ServerError

  datatype Route = RegisterRoute | LoginRoute

  /** The status code and the JSON body (`message`, `errors`, `userId`, `token`). */
  datatype Response = Response(status: nat, message: string, errors: seq<FieldError>,
                               userId: Option<UserId>, token: Option<Token>)

  const GenericFailure := "Something went wrong"

  /** `res.status(...).json(...)`: the response each outcome is sent as. */
  function Render(route: Route, o: Outcome): (r: Response)
    ensures r.status in {200, 201, 400, 500}
    ensures r.status == 500 <==> o.ServerError?
    ensures r.status == 201 <==> route.RegisterRoute? && o.Success?
    ensures r.status == 400 <==> route.LoginRoute? && o.ValidationFailed?
    ensures o.ServerError? ==> r.message == GenericFailure && r.errors == [] && r.userId.None? && r.token.None?
    ensures r.errors == (if o.ValidationFailed? then o.errors else [])
    ensures r.userId.Some? <==> o.Success?
    ensures r.token.Some? <==> o.Success?
    ensures o.Success? ==> r.userId.value == o.userId && r.token.value == o.token
  {
    match o
    case ValidationFailed(errs) =>
      if route.RegisterRoute? then Response(200, "Not correct data per register.", errs, None, None)
      else Response(400, "Not correct data per login.", errs, None, None)
    case Conflict => Response(200, "User with that email already exists.", [], None, None)
    case NotFound => Response(200, "Can't find User with that email.", [], None, None)
    case WrongCredentials => Response(200, "Wrong credentials.", [], None, None)
    case Success(id, t) =>
      if route.RegisterRoute? then Response(201, "User created and you logged in.", [], Some(id), Some(t))
      else Response(200, "Successfully logged In.", [], Some(id), Some(t))
    case ServerError => Response(500, GenericFailure, [], None, None)
  }

  /** The outcome of a register request and the collection and id counter after it. */
  datatype Step = Step(outcome: Outcome, users: seq<UserRecord>, nextId: UserId)

  /**
   * POST /register: validate, look the e-mail up, hash the password, build
   * the document (which draws its id), save it, sign a token.
   */
  function RegisterSpec(cfg: Config, users: seq<UserRecord>, nextId: UserId, body: Body,
                        salt: Salt, now: int, faults: Faults): Step
  {
    var errors := Validate(RegisterChecks, cfg.isEmail, body);
    if errors != [] then Step(ValidationFailed(errors), users, nextId)
    else if faults.findOne then Step(ServerError, users, nextId)
    else if FindByEmail(users, body.email).Some? then Step(Conflict, users, nextId)
    else if faults.hash then Step(ServerError, users, nextId)
    else
      var newUser := UserRecord(nextId, body.name, body.email, cfg.bcrypt.hash(salt, body.password));
      if faults.save then Step(ServerError, users, nextId + 1)
      else if faults.sign then Step(ServerError, users + [newUser], nextId + 1)
      else Step(Success(nextId, Sign(nextId, cfg.secret, now)), users + [newUser], nextId + 1)
  }

  /**
   * POST /login: validate, look the e-mail up, compare the password with
   * the stored hash, sign a token. Only reads the collection.
   */
  function LoginSpec(cfg: Config, users: seq<UserRecord>, body: Body, now: int, faults: Faults): Outcome
  {
    var errors := Validate(LoginChecks, cfg.isEmail, body);
    if errors != [] then ValidationFailed(errors)
    else if faults.findOne then ServerError
    else
      match FindByEmail(users, body.email)
      case None => NotFound
      case Some(user) =>
        if faults.compare then ServerError
        else if !cfg.bcrypt.compare(body.password, user.password) then WrongCredentials
        else if faults.sign then ServerError
        else Success(user.id, Sign(user.id, cfg.secret, now))
  }

  // ---------------------------------------------------------------------
  // Register

  /**
   * A body outside the bounds is answered with its validation errors and
   * status 200, and neither the collection nor the id counter changes.
   */
  lemma RegisterRejectsInvalidBody(cfg: Config, users: seq<UserRecord>, nextId: UserId, body: Body,
                                   salt: Salt, now: int, faults: Faults)
    ensures var s := RegisterSpec(cfg, users, nextId, body, salt, now, faults);
      && (s.outcome.ValidationFailed? <==> !RegisterBodyOk(cfg.isEmail, body))
      && (s.outcome.ValidationFailed? ==>
            && s.outcome.errors != []
            && s.users == users && s.nextId == nextId
            && Render(RegisterRoute, s.outcome).status == 200
            && Render(RegisterRoute, s.outcome).message == "Not correct data per register.")
  {
    RegisterRules(cfg.isEmail, body);
  }

  /**
   * A valid body whose e-mail is already stored is answered with the
   * conflict message and status 200, and nothing is inserted.
   */
  lemma RegisterRejectsTakenEmail(cfg: Config, users: seq<UserRecord>, nextId: UserId, body: Body,
                                  salt: Salt, now: int, faults: Faults)
    ensures var s := RegisterSpec(cfg, users, nextId, body, salt, now, faults);
      && (s.outcome.Conflict? <==>
            RegisterBodyOk(cfg.isEmail, body) && !faults.findOne && EmailTaken(users, body.email))
      && (s.outcome.Conflict? ==>
            && s.users == users && s.nextId == nextId
            && Render(RegisterRoute, s.outcome).status == 200
            && Render(RegisterRoute, s.outcome).message == "User with that email already exists.")
  {
    RegisterRules(cfg.isEmail, body);
  }

  /**
   * A register succeeds exactly when the body is valid, the e-mail is new
   * and no call throws. It then appends one document with the submitted
   * name and e-mail, the next id, and the bcrypt hash of the password,
   * which is not the plaintext and matches it; it answers 201 with that id
   * and a token signed over `{userId}` for ten hours.
   */
  lemma RegisterCreatesUser(cfg: Config, users: seq<UserRecord>, nextId: UserId, body: Body,
                            salt: Salt, now: int, faults: Faults)
    requires Lawful(cfg.bcrypt)
    ensures var s := RegisterSpec(cfg, users, nextId, body, salt, now, faults);
      && (s.outcome.Success? <==>
            && RegisterBodyOk(cfg.isEmail, body) && !EmailTaken(users, body.email)
            && !faults.findOne && !faults.hash && !faults.save && !faults.sign)
      && (s.outcome.Success? ==>
            && s.outcome.userId == nextId
            && s.outcome.token == Signed(Claims(nextId), cfg.secret, "10h", now)
            && s.nextId == nextId + 1
            && |s.users| == |users| + 1
            && s.users[..|users|] == users
            && s.users[|users|].id == nextId
            && s.users[|users|].name == body.name
            && s.users[|users|].email == body.email
            && s.users[|users|].password == cfg.bcrypt.hash(salt, body.password)
            && s.users[|users|].password != body.password
            && cfg.bcrypt.compare(body.password, s.users[|users|].password)
            && Render(RegisterRoute, s.outcome).status == 201
            && Render(RegisterRoute, s.outcome).message == "User created and you logged in.")
  {
    RegisterRules(cfg.isEmail, body);
    var s := RegisterSpec(cfg, users, nextId, body, salt, now, faults);
    if s.outcome.Success? {
      assert s.users[..|users|] == users;
    }
  }

  /**
   * A valid register ends in status 500 with the fixed message exactly when
   * the lookup throws, or the e-mail is new and hashing, saving or signing
   * throws.
   */
  lemma RegisterServerError(cfg: Config, users: seq<UserRecord>, nextId: UserId, body: Body,
                            salt: Salt, now: int, faults: Faults)
    ensures var s := RegisterSpec(cfg, users, nextId, body, salt, now, faults);
      && (s.outcome.ServerError? <==>
            && RegisterBodyOk(cfg.isEmail, body)
            && (faults.findOne || (!EmailTaken(users, body.email) && (faults.hash || faults.save || faults.sign))))
      && (s.outcome.ServerError? ==> Render(RegisterRoute, s.outcome) == Response(500, GenericFailure, [], None, None))
  {
    RegisterRules(cfg.isEmail, body);
  }

  /**
   * The collection gains at most one document, and it gains one exactly
   * when the document was saved: on success, and also when signing the
   * token throws after the save, which is answered with status 500.
   */
  lemma RegisterStoreEffect(cfg: Config, users: seq<UserRecord>, nextId: UserId, body: Body,
                            salt: Salt, now: int, faults: Faults)
    ensures var s := RegisterSpec(cfg, users, nextId, body, salt, now, faults);
      && (s.users == users || s.users == users + [UserRecord(nextId, body.name, body.email, cfg.bcrypt.hash(salt, body.password))])
      && (s.users != users <==>
            && RegisterBodyOk(cfg.isEmail, body) && !EmailTaken(users, body.email)
            && !faults.findOne && !faults.hash && !faults.save)
      && (s.users != users ==> s.outcome.Success? || (faults.sign && s.outcome.ServerError?))
  {
    RegisterRules(cfg.isEmail, body);
    var s := RegisterSpec(cfg, users, nextId, body, salt, now, faults);
    assert |users + [UserRecord(nextId, body.name, body.email, cfg.bcrypt.hash(salt, body.password))]| == |users| + 1;
  }

  /** Register keeps the collection invariant: no two documents share an e-mail or an id. */
  lemma RegisterPreservesWellFormed(cfg: Config, users: seq<UserRecord>, nextId: UserId, body: Body,
                                    salt: Salt, now: int, faults: Faults)
    requires WellFormed(users, nextId)
    ensures var s := RegisterSpec(cfg, users, nextId, body, salt, now, faults);
      WellFormed(s.users, s.nextId)
  {
  }

  /**
   * Registering the same e-mail a second time, once the first register
   * stored its document, is a conflict that inserts nothing. The first
   * register may have succeeded, or it may have answered 500 because
   * signing threw after the save.
   */
  lemma RegisterSameEmailTwice(cfg: Config, users: seq<UserRecord>, nextId: UserId, first: Body, second: Body,
                               salt1: Salt, salt2: Salt, now1: int, now2: int, faults1: Faults, faults2: Faults)
    requires RegisterSpec(cfg, users, nextId, first, salt1, now1, faults1).users != users
    requires second.email == first.email
    requires RegisterBodyOk(cfg.isEmail, second) && !faults2.findOne
    ensures var s1 := RegisterSpec(cfg, users, nextId, first, salt1, now1, faults1);
      var s2 := RegisterSpec(cfg, s1.users, s1.nextId, second, salt2, now2, faults2);
      s2.outcome == Conflict && s2.users == s1.users && s2.nextId == s1.nextId
  {
    var s1 := RegisterSpec(cfg, users, nextId, first, salt1, now1, faults1);
    RegisterStoreEffect(cfg, users, nextId, first, salt1, now1, faults1);
    assert s1.users[|users|].email == second.email;
    RegisterRejectsTakenEmail(cfg, s1.users, s1.nextId, second, salt2, now2, faults2);
  }

  // ---------------------------------------------------------------------
  // Login

  /**
   * A body whose e-mail or password is outside the bounds is answered with
   * its validation errors and status 400 (register answers 200); the name
   * plays no part.
   */
  lemma LoginRejectsInvalidBody(cfg: Config, users: seq<UserRecord>, body: Body, now: int, faults: Faults)
    ensures var o := LoginSpec(cfg, users, body, now, faults);
      && (o.ValidationFailed? <==> !LoginBodyOk(cfg.isEmail, body))
      && (o.ValidationFailed? ==>
            && o.errors != [] && !Flags(o.errors, "name")
            && Render(LoginRoute, o).status == 400
            && Render(LoginRoute, o).message == "Not correct data per login.")
  {
    LoginRules(cfg.isEmail, body);
  }

  /** The name in a login body never affects the outcome. */
  lemma LoginIgnoresName(cfg: Config, users: seq<UserRecord>, body: Body, name: string, now: int, faults: Faults)
    ensures LoginSpec(cfg, users, body.(name := name), now, faults) == LoginSpec(cfg, users, body, now, faults)
  {
    LoginChecksInOrder(cfg.isEmail, body);
    LoginChecksInOrder(cfg.isEmail, body.(name := name));
  }

  /**
   * A valid login for an e-mail nobody registered is answered with
   * "Can't find User with that email." and status 200.
   */
  lemma LoginUnknownEmail(cfg: Config, users: seq<UserRecord>, body: Body, now: int, faults: Faults)
    ensures var o := LoginSpec(cfg, users, body, now, faults);
      && (o.NotFound? <==> LoginBodyOk(cfg.isEmail, body) && !faults.findOne && !EmailTaken(users, body.email))
      && (o.NotFound? ==>
            Render(LoginRoute, o).status == 200 && Render(LoginRoute, o).message == "Can't find User with that email.")
  {
    LoginRules(cfg.isEmail, body);
  }

  /**
   * A valid login for a stored document: "Wrong credentials." with status
   * 200 exactly when bcrypt says the password does not match that
   * document's hash; success exactly when it matches and nothing throws,
   * answered with status 200, the document's id and a token over it.
   */
  lemma LoginKnownEmail(cfg: Config, users: seq<UserRecord>, i: nat, body: Body, now: int, faults: Faults)
    requires UniqueEmails(users)
    requires i < |users| && users[i].email == body.email
    ensures var o := LoginSpec(cfg, users, body, now, faults);
      && (o.WrongCredentials? <==>
            && LoginBodyOk(cfg.isEmail, body) && !faults.findOne && !faults.compare
            && !cfg.bcrypt.compare(body.password, users[i].password))
      && (o.WrongCredentials? ==>
            Render(LoginRoute, o).status == 200 && Render(LoginRoute, o).message == "Wrong credentials.")
      && (o.Success? <==>
            && LoginBodyOk(cfg.isEmail, body) && !faults.findOne && !faults.compare && !faults.sign
            && cfg.bcrypt.compare(body.password, users[i].password))
      && (o.Success? ==>
            && o.userId == users[i].id
            && o.token == Signed(Claims(users[i].id), cfg.secret, "10h", now)
            && Render(LoginRoute, o).status == 200
            && Render(LoginRoute, o).message == "Successfully logged In.")
      && !o.NotFound? && !o.Conflict?
  {
    LoginRules(cfg.isEmail, body);
    FindStored(users, i);
  }

  /**
   * A valid login ends in status 500 with the fixed message exactly when
   * the lookup throws, or the document exists and comparing or signing
   * throws.
   */
  lemma LoginServerError(cfg: Config, users: seq<UserRecord>, body: Body, now: int, faults: Faults)
    ensures var o := LoginSpec(cfg, users, body, now, faults);
      && (o.ServerError? <==>
            && LoginBodyOk(cfg.isEmail, body)
            && (|| faults.findOne
                || (EmailTaken(users, body.email) && faults.compare)
                || (&& EmailTaken(users, body.email) && faults.sign
                    && cfg.bcrypt.compare(body.password, FindByEmail(users, body.email).value.password))))
      && (o.ServerError? ==> Render(LoginRoute, o) == Response(500, GenericFailure, [], None, None))
  {
    LoginRules(cfg.isEmail, body);
  }

  /**
   * Round trip: after a successful register, logging in with the same
   * e-mail and password succeeds, for the id the register returned.
   */
  lemma RegisterThenLogin(cfg: Config, users: seq<UserRecord>, nextId: UserId, body: Body,
                          salt: Salt, now1: int, now2: int)
    requires Lawful(cfg.bcrypt)
    requires WellFormed(users, nextId)
    requires RegisterSpec(cfg, users, nextId, body, salt, now1, NoFaults).outcome.Success?
    ensures var s := RegisterSpec(cfg, users, nextId, body, salt, now1, NoFaults);
      LoginSpec(cfg, s.users, body, now2, NoFaults) == Success(s.outcome.userId, Sign(s.outcome.userId, cfg.secret, now2))
  {
    var s := RegisterSpec(cfg, users, nextId, body, salt, now1, NoFaults);
    RegisterCreatesUser(cfg, users, nextId, body, salt, now1, NoFaults);
    RegisterPreservesWellFormed(cfg, users, nextId, body, salt, now1, NoFaults);
    LoginKnownEmail(cfg, s.users, |users|, body, now2, NoFaults);
  }

  // ---------------------------------------------------------------------
  // The router's state

  /**
   * The User collection the two handlers share, with the bcrypt library,
   * the e-mail grammar and the signing secret fixed at startup, and the
   * counter that stands for Mongoose's id generation.
   */
  class AuthService {
    const config: Config
    var users: seq<UserRecord>
    var nextId: UserId

    ghost predicate Valid()
      reads this
    {
      Lawful(config.bcrypt) && WellFormed(users, nextId)
    }

    constructor (config: Config)
      requires Lawful(config.bcrypt)
      ensures Valid()
      ensures this.config == config && users == [] && nextId == 0
    {
      this.config := config;
      users := [];
      nextId := 0;
    }

    /** The POST /register handler. */
    method Register(body: Body, salt: Salt, now: int, faults: Faults) returns (outcome: Outcome, response: Response)
      requires Valid()
      modifies this
      ensures Valid()
      ensures Step(outcome, users, nextId) == RegisterSpec(config, old(users), old(nextId), body, salt, now, faults)
      ensures response == Render(RegisterRoute, outcome)
    {
      RegisterPreservesWellFormed(config, users, nextId, body, salt, now, faults);
      var errors := Validate(RegisterChecks, config.isEmail, body);
      if errors != [] {
        outcome := ValidationFailed(errors);
      } else if faults.findOne {
        outcome := ServerError;
      } else {
        var candidate := FindByEmail(users, body.email);
        if candidate.Some? {
          outcome := Conflict;
        } else if faults.hash {
          outcome := ServerError;
        } else {
          var hashedPassword := config.bcrypt.hash(salt, body.password);
          var newUser := UserRecord(nextId, body.name, body.email, hashedPassword);
          nextId := nextId + 1;
          if faults.save {
            outcome := ServerError;
          } else {
            users := users + [newUser];
            var userId := newUser.id;
            if faults.sign {
              outcome := ServerError;
            } else {
              var token := Sign(userId, config.secret, now);
              outcome := Success(userId, token);
            }
          }
        }
      }
      response := Render(RegisterRoute, outcome);
    }

    /** The POST /login handler; it changes nothing. */
    method Login(body: Body, now: int, faults: Faults) returns (outcome: Outcome, response: Response)
      ensures outcome == LoginSpec(config, users, body, now, faults)
      ensures response == Render(LoginRoute, outcome)
    {
      var errors := Validate(LoginChecks, config.isEmail, body);
      if errors != [] {
        outcome := ValidationFailed(errors);
      } else if faults.findOne {
        outcome := ServerError;
      } else {
        var currentUser := FindByEmail(users, body.email);
        if currentUser.None? {
          outcome := NotFound;
        } else if faults.compare {
          outcome := ServerError;
        } else {
          var isMatch := config.bcrypt.compare(body.password, currentUser.value.password);
          if !isMatch {
            outcome := WrongCredentials;
          } else if faults.sign {
            outcome := ServerError;
          } else {
            var userId := currentUser.value.id;
            outcome := Success(userId, Sign(userId, config.secret, now));
          }
        }
      }
      response := Render(LoginRoute, outcome);
    }
  }

  /** The register rules refuse the five-letter name "Alice" and nothing else of this body. */
  lemma ShortNameRefused(isEmail: string -> bool, short: Body)
    requires short == Body("Alice", "alice@x.com", "secret1")
    requires isEmail("alice@x.com")
    ensures Validate(RegisterChecks, isEmail, short) == [FieldError("name", NameMessage, "Alice")]
  {
  }

  /**
   * A session against a fresh service: a register with a five-letter name
   * is refused with the name rule's error, and nothing is stored.
   */
  method ShortNameSession(config: Config, salt: Salt, now: int) returns (refused: Response, stored: nat)
    requires config.isEmail("alice@x.com")
    requires Lawful(config.bcrypt)
    ensures refused.status == 200 && refused.errors == [FieldError("name", NameMessage, "Alice")]
    ensures stored == 0
  {
    var service := new AuthService(config);
    var short := Body("Alice", "alice@x.com", "secret1");
    ShortNameRefused(config.isEmail, short);
    var _, r0 := service.Register(short, salt, now, NoFaults);
    refused := r0;
    stored := |service.users|;
  }

  /**
   * A session against a fresh service: a register succeeds and the same
   * credentials then log in as the same user.
   */
  method RegisterLoginSession(config: Config, salt: Salt, now: int)
    returns (created: Response, loggedIn: Response)
    requires Lawful(config.bcrypt) && config.isEmail("alice@x.com")
    ensures created.status == 201 && created.userId == Some(0)
    ensures loggedIn.status == 200 && loggedIn.userId == created.userId
    ensures loggedIn.token == Some(Sign(0, config.secret, now))
  {
    var service := new AuthService(config);
    var alice := Body("Alice Liddell", "alice@x.com", "secret1");
    assert |alice.name| == 13 && |alice.email| == 11 && |alice.password| == 7;
    RegisterCreatesUser(config, [], 0, alice, salt, now, NoFaults);
    RegisterThenLogin(config, [], 0, alice, salt, now, now);
    ghost var first := RegisterSpec(config, [], 0, alice, salt, now, NoFaults);
    var _, r1 := service.Register(alice, salt, now, NoFaults);
    assert service.users == first.users && service.nextId == first.nextId;
    created := r1;
    var _, r2 := service.Login(alice, now, NoFaults);
    loggedIn := r2;
  }

  /** A session against a fresh service: the second register with the same e-mail is a conflict. */
  method DuplicateRegisterSession(config: Config, salt1: Salt, salt2: Salt, now: int)
    returns (created: Response, duplicate: Response)
    requires Lawful(config.bcrypt) && config.isEmail("alice@x.com")
    ensures created.status == 201
    ensures duplicate.status == 200 && duplicate.message == "User with that email already exists."
  {
    var service := new AuthService(config);
    var alice := Body("Alice Liddell", "alice@x.com", "secret1");
    assert |alice.name| == 13 && |alice.email| == 11 && |alice.password| == 7;
    RegisterCreatesUser(config, [], 0, alice, salt1, now, NoFaults);
    ghost var first := RegisterSpec(config, [], 0, alice, salt1, now, NoFaults);
    var _, r1 := service.Register(alice, salt1, now, NoFaults);
    assert service.users == first.users && service.nextId == first.nextId;
    created := r1;

    var again := Body("Alice Liddell", "alice@x.com", "another1");
    assert |again.password| == 8;
    RegisterSameEmailTwice(config, [], 0, alice, again, salt1, salt2, now, now, NoFaults, NoFaults);
    var _, r2 := service.Register(again, salt2, now, NoFaults);
    duplicate := r2;
  }
}
