/**
 * The CORS configuration of the holidays API server: an allow-list of three
 * origins and an origin callback built on it, and the middleware actually
 * installed, which is the `cors` package with no options at all.
 */
module Server {
  import opened Fetch

  /** The allowed origins, in order. Nothing ever writes to this list. */
  const Whitelist: seq<string> := [
    "http://localhost:3000",
    "http://localhost:3003",
    "https://fathomless-sierra-68956.herokuapp.com"
  ]

  /**
   * `list.indexOf(origin)`: strict equality, so an absent (`undefined`)
   * origin matches no string.
   */
  function IndexOf(list: seq<string>, origin: Option<string>): (i: int)
    ensures -1 <= i < |list|
    ensures i == -1 <==> origin.None? || origin.value !in list
    ensures 0 <= i ==> origin == Some(list[i]) && forall j :: 0 <= j < i ==> list[j] != origin.value
  {
    if list == [] || origin.None? then -1
    else if list[0] == origin.value then 0
    else
      var k := IndexOf(list[1..], origin);
      if k == -1 then -1 else k + 1
  }

  /** The arguments the origin callback is called with: `(error)` or `(null, true)`. */
  datatype CallbackArgs = CallbackArgs(error: Option<string>, allow: Option<bool>)

  const Allowed := CallbackArgs(None, Some(true))
  const Refused := CallbackArgs(Some("Not allowed by CORS"), None)

  /** `corsOptions.origin`: accepts exactly the listed origins and reports an error for any other. */
  function OriginCheck(origin: Option<string>): (args: CallbackArgs)
    ensures args == Allowed <==> origin.Some? && origin.value in Whitelist
    ensures args != Allowed ==> args == Refused
    ensures args.allow != Some(false)
  {
    if IndexOf(Whitelist, origin) != -1 then Allowed else Refused
  }

  /** Variants of a listed origin and a missing origin are refused: matching is exact. */
  lemma ExactMatchOnly()
    ensures |Whitelist| == 3
    ensures OriginCheck(Some("http://localhost:3000")) == Allowed
    ensures OriginCheck(Some("http://localhost:3000/")) == Refused
    ensures OriginCheck(Some("HTTP://LOCALHOST:3000")) == Refused
    ensures OriginCheck(None) == Refused
  {
    assert "http://localhost:3000" == Whitelist[0];
    assert |"http://localhost:3000/"| == 22;
    assert "HTTP://LOCALHOST:3000"[0] == 'H';
  }

  /** The ways the `cors` middleware can be installed in this file. */
  datatype CorsConfig =
    | Defaults          // cors(): every origin is answered with `*`
    | WithCorsOptions   // cors(corsOptions): the origin callback decides

  /** What `app.use(cors())` installs. */
  const Installed: CorsConfig := Defaults

  /** Whether a request from `origin` gets past the middleware (no error handed to `next`). */
  function Admits(config: CorsConfig, origin: Option<string>): (ok: bool)
    ensures config.Defaults? ==> ok
    ensures config.WithCorsOptions? ==> (ok <==> OriginCheck(origin) == Allowed)
  {
    match config
    case Defaults => true
    case WithCorsOptions => OriginCheck(origin).error.None?
  }

  /**
   * The allow-list is never consulted: the installed middleware admits every
   * origin, and it differs from `cors(corsOptions)` exactly on the origins
   * the origin callback refuses.
   */
  lemma WhitelistNotEnforced(origin: Option<string>)
    ensures Admits(Installed, origin)
    ensures Admits(Installed, origin) != Admits(WithCorsOptions, origin) <==> OriginCheck(origin) == Refused
  {
  }
}
