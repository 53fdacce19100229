/**
 * The holidays API's `POST /users` handler: it replaces the request body's
 * password by its bcrypt hash, hands the body to `User.create`, and answers
 * 201 with a copy of the created document from which `password` is deleted.
 *
 * bcrypt is the parameter `hash` (no property of it is assumed) and the salt
 * it is given is the parameter `salt`. The `User` model is not part of this
 * model: what `User.create` stores and returns is the parameter `createdUser`.
 */
module UsersController {
  import opened Fetch

  /** The Express request; `body` is the parsed JSON body, which the handler rewrites in place. */
  class UserRequest {
    var body: map<string, string>

    constructor (body: map<string, string>)
      ensures this.body == body
    {
      this.body := body;
    }
  }

  /** A Mongoose document; `doc` is its `_doc`, the stored fields. */
  class UserDocument {
    var doc: map<string, string>

    constructor (doc: map<string, string>)
      ensures this.doc == doc
    {
      this.doc := doc;
    }
  }

  datatype Response = Response(status: int, json: map<string, string>)

  /**
   * `req.body.password = bcrypt.hashSync(req.body.password, salt)`. Without a
   * password bcrypt throws, the body is left as it was and `hashed` is false.
   */
  method HashPassword(req: UserRequest, salt: string, hash: (string, string) -> string) returns (hashed: bool)
    modifies req
    ensures hashed <==> "password" in old(req.body)
    ensures hashed ==> req.body == old(req.body)["password" := hash(old(req.body)["password"], salt)]
    ensures !hashed ==> req.body == old(req.body)
  {
    hashed := "password" in req.body;
    if hashed {
      req.body := req.body["password" := hash(req.body["password"], salt)];
    }
  }

  /**
   * The `User.create` callback. Its error argument is ignored: when creation
   * fails `createdUser` is undefined, reading `_doc` throws and no response is
   * sent. Otherwise the reply is 201 with a shallow copy of `_doc` without
   * `password`; the document itself is not written.
   */
  method Respond(createdUser: Option<UserDocument>) returns (res: Option<Response>)
    ensures res.Some? <==> createdUser.Some?
    ensures res.Some? ==> res.value.status == 201
    ensures res.Some? ==> "password" !in res.value.json
    ensures res.Some? ==> res.value.json.Keys == createdUser.value.doc.Keys - {"password"}
    ensures res.Some? ==> forall k :: k in res.value.json ==> res.value.json[k] == createdUser.value.doc[k]
  {
    if createdUser.None? {
      res := None;
    } else {
      var user := createdUser.value.doc;
      user := user - {"password"};
      res := Some(Response(201, user));
    }
  }

  /**
   * The whole handler: `persisted` is what is handed to `User.create` (None
   * when hashing threw and `User.create` is never called), `res` the reply
   * the handler sends. When hashing throws, Express's default error handler
   * answers 500; that reply is not modelled and `res` is None on that path.
   */
  method Post(req: UserRequest, salt: string, hash: (string, string) -> string, createdUser: Option<UserDocument>)
    returns (persisted: Option<map<string, string>>, res: Option<Response>)
    modifies req
    ensures persisted.Some? <==> "password" in old(req.body)
    ensures persisted.Some? ==> persisted.value == req.body
    ensures persisted.Some? ==> persisted.value.Keys == old(req.body.Keys)
    ensures persisted.Some? ==> persisted.value["password"] == hash(old(req.body)["password"], salt)
    ensures persisted.Some? ==> forall k :: k in old(req.body) && k != "password" ==> persisted.value[k] == old(req.body)[k]
    ensures persisted.None? ==> res.None? && req.body == old(req.body)
    ensures persisted.Some? ==> (res.Some? <==> createdUser.Some?)
    ensures res.Some? ==> res.value.status == 201 && "password" !in res.value.json
    ensures res.Some? ==> res.value.json.Keys == createdUser.value.doc.Keys - {"password"}
    ensures res.Some? ==> forall k :: k in res.value.json ==> res.value.json[k] == createdUser.value.doc[k]
    ensures createdUser.Some? ==> createdUser.value.doc == old(createdUser.value.doc)
  {
    var hashed := HashPassword(req, salt, hash);
    if !hashed {
      return None, None;
    }
    persisted := Some(req.body);
    res := Respond(createdUser);
  }
}
