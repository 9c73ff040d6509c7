/**
 * The three routers (backend/src/routes/productRoutes.ts, authRoutes.ts and
 * newsletterRoutes.ts) as data: each route is a method, a path pattern, a
 * middleware chain and a handler, tried in registration order. The validator
 * chains of express-validator are data too, run over the request body with
 * `isEmail`, `isURL`, `normalizeEmail` and the float parser left abstract.
 */
module Routes {
  import opened Wrappers
  import opened Http
  import opened Types
  import opened Auth
  import opened ProductSchema
  import opened Text

  datatype Method = Get | Post | Put | Delete

  /** A path segment: a literal, or a `:name` parameter that matches any non-empty segment. */
  datatype Segment = Lit(text: string) | Param(name: string)

  datatype Handler =
    | GetProducts | GetFeaturedProducts | GetProductById | CreateProduct | UpdateProduct | DeleteProduct
    | Register | Login | GetProfile
    | Subscribe | Unsubscribe | GetSubscribers

  /** The check of one validator chain. */
  datatype Check =
    | NotEmpty
    | MinLength(n: nat)
    | FloatAtLeast(min: real)
    | OneOf(values: seq<string>)
    | IsUrl
    | IsEmail

  /**
   * `body(field)` followed by an optional `trim()` sanitiser, one check, and an
   * optional `normalizeEmail()` sanitiser after it.
   */
  datatype Rule = Rule(field: string, trimFirst: bool, check: Check, normalizeAfter: bool)

  datatype Middleware = Authenticate | RequireAdmin | Validate(rules: seq<Rule>)

  datatype Route = Route(verb: Method, path: seq<Segment>, chain: seq<Middleware>, handler: Handler)

  /**
   * The foreign pieces: validator.js's `trim`, `isEmail`, `isURL`,
   * `normalizeEmail` and float parser, and the JWT verifier.
   */
  datatype Library = Library(
    trim: string -> string,
    isEmail: string -> bool,
    isUrl: string -> bool,
    normalizeEmail: string -> string,
    parseFloat: string -> Option<real>,
    verify: Verifier)

  const CreateProductRules: seq<Rule> := [
    Rule("name", true, NotEmpty, false),
    Rule("description", true, NotEmpty, false),
    Rule("price", false, FloatAtLeast(0.0), false),
    Rule("category", false, OneOf(Categories), false),
    Rule("imageUrl", false, IsUrl, false)
  ]

  const ProductRoutes: seq<Route> := [
    Route(Get, [], [], GetProducts),
    Route(Get, [Lit("featured")], [], GetFeaturedProducts),
    Route(Get, [Param("id")], [], GetProductById),
    Route(Post, [], [Authenticate, RequireAdmin, Validate(CreateProductRules)], CreateProduct),
    Route(Put, [Param("id")], [Authenticate, RequireAdmin], UpdateProduct),
    Route(Delete, [Param("id")], [Authenticate, RequireAdmin], DeleteProduct)
  ]

  const RegisterRules: seq<Rule> := [
    Rule("email", false, IsEmail, true),
    Rule("password", false, MinLength(6), false),
    Rule("firstName", true, NotEmpty, false),
    Rule("lastName", true, NotEmpty, false)
  ]

  const LoginRules: seq<Rule> := [
    Rule("email", false, IsEmail, true),
    Rule("password", false, NotEmpty, false)
  ]

  const AuthRoutes: seq<Route> := [
    Route(Post, [Lit("register")], [Validate(RegisterRules)], Register),
    Route(Post, [Lit("login")], [Validate(LoginRules)], Login),
    Route(Get, [Lit("profile")], [Authenticate], GetProfile)
  ]

  const EmailRules: seq<Rule> := [Rule("email", false, IsEmail, true)]

  const NewsletterRoutes: seq<Route> := [
    Route(Post, [Lit("subscribe")], [Validate(EmailRules)], Subscribe),
    Route(Post, [Lit("unsubscribe")], [Validate(EmailRules)], Unsubscribe),
    Route(Get, [Lit("subscribers")], [Authenticate, RequireAdmin], GetSubscribers)
  ]

  /** The two strings differ at most in the case of their letters. */
  predicate SameIgnoringCase(s: string, t: string) {
    |s| == |t| && forall i :: 0 <= i < |s| ==> LowerChar(s[i]) == LowerChar(t[i])
  }

  /** Comparing letter by letter without case is comparing the lower-cased strings. */
  lemma SameIgnoringCaseIsLowerEqual(s: string, t: string)
    ensures SameIgnoringCase(s, t) <==> ToLower(s) == ToLower(t)
  {
    if ToLower(s) == ToLower(t) {
      forall i | 0 <= i < |s| ensures LowerChar(s[i]) == LowerChar(t[i]) {
        assert ToLower(s)[i] == ToLower(t)[i];
      }
    }
  }

  /** A `Router()` built without `caseSensitive` matches literal segments whatever their case. */
  predicate SegmentMatches(p: Segment, s: string) {
    match p
    case Lit(t) => SameIgnoringCase(s, t)
    case Param(_) => s != ""
  }

  predicate PathMatches(path: seq<Segment>, segments: seq<string>) {
    |path| == |segments| && forall i :: 0 <= i < |path| ==> SegmentMatches(path[i], segments[i])
  }

  predicate RouteMatches(r: Route, m: Method, segments: seq<string>) {
    r.verb == m && PathMatches(r.path, segments)
  }

  /** The first route, in registration order, that matches: Express's dispatch. */
  function Dispatch(routes: seq<Route>, m: Method, segments: seq<string>): (r: Option<Route>)
    ensures r.Some? ==> r.value in routes && RouteMatches(r.value, m, segments)
    ensures r.None? <==> forall i :: 0 <= i < |routes| ==> !RouteMatches(routes[i], m, segments)
  {
    if routes == [] then None
    else if RouteMatches(routes[0], m, segments) then Some(routes[0])
    else Dispatch(routes[1..], m, segments)
  }

  /** An absent body field reads as the empty string. */
  function Field(body: map<string, string>, name: string): string {
    if name in body then body[name] else ""
  }

  /** The variation selectors U+FE0E and U+FE0F, which pick text or emoji presentation. */
  predicate PresentationSelector(c: char) {
    c == '\U{FE0E}' || c == '\U{FE0F}'
  }

  /**
   * The length validator.js's `isLength` compares: every code point except the
   * presentation selectors. A surrogate pair is one `char` here already.
   */
  function IsLengthCount(s: string): (n: nat)
    ensures n <= |s|
    ensures n == |s| <==> forall i :: 0 <= i < |s| ==> !PresentationSelector(s[i])
  {
    if s == [] then 0
    else
      var rest := IsLengthCount(s[1..]);
      assert forall i :: 1 <= i < |s| ==> s[i] == s[1..][i - 1];
      (if PresentationSelector(s[0]) then 0 else 1) + rest
  }

  function CheckPasses(c: Check, v: string, lib: Library): bool {
    match c
    case NotEmpty => v != ""
    case MinLength(n) => IsLengthCount(v) >= n
    case FloatAtLeast(min) => lib.parseFloat(v).Some? && lib.parseFloat(v).value >= min
    case OneOf(values) => v in values
    case IsUrl => lib.isUrl(v)
    case IsEmail => lib.isEmail(v)
  }

  /** The value the check sees: trimmed first when the chain says so. */
  function Checked(rule: Rule, body: map<string, string>, lib: Library): string {
    var v := Field(body, rule.field);
    if rule.trimFirst then lib.trim(v) else v
  }

  predicate RulePasses(rule: Rule, body: map<string, string>, lib: Library) {
    CheckPasses(rule.check, Checked(rule, body, lib), lib)
  }

  /** The field as the chain's sanitisers leave it in the body; an absent field stays absent. */
  function Sanitized(rule: Rule, body: map<string, string>, lib: Library): (b: map<string, string>)
    ensures b.Keys == body.Keys
  {
    if rule.field !in body then body
    else
      var v := Checked(rule, body, lib);
      body[rule.field := if rule.normalizeAfter then lib.normalizeEmail(v) else v]
  }

  /** Runs validator chains in order: failing fields are recorded, the request always goes on. */
  function RunRules(rules: seq<Rule>, req: Request, lib: Library): (r: Request)
    ensures r.authorization == req.authorization && r.user == req.user
    ensures |r.errors| >= |req.errors|
    ensures r.errors[..|req.errors|] == req.errors
  {
    if rules == [] then req
    else
      var rule := rules[0];
      var errs := if RulePasses(rule, req.body, lib) then req.errors else req.errors + [rule.field];
      RunRules(rules[1..], req.(body := Sanitized(rule, req.body, lib), errors := errs), lib)
  }

  /** Runs a chain: the first middleware that answers ends it; otherwise the handler gets the request. */
  function RunChain(chain: seq<Middleware>, req: Request, lib: Library): Step {
    if chain == [] then Next(req)
    else
      var s := match chain[0]
        case Authenticate => Auth.Authenticate(req, lib.verify)
        case RequireAdmin => Auth.RequireAdmin(req)
        case Validate(rules) => Next(RunRules(rules, req, lib));
      if s.Respond? then s else RunChain(chain[1..], s.req, lib)
  }

  /** "featured" reaches the featured handler: it is registered before `/:id`. */
  lemma FeaturedIsNotAnId()
    ensures Dispatch(ProductRoutes, Get, ["featured"]) == Some(ProductRoutes[1])
    ensures ProductRoutes[1].handler == GetFeaturedProducts
  {
  }

  /** The first route that matches is the one dispatched, whatever comes after it. */
  lemma {:induction false} FirstMatchWins(routes: seq<Route>, m: Method, segments: seq<string>, k: int)
    requires 0 <= k < |routes| && RouteMatches(routes[k], m, segments)
    requires forall i :: 0 <= i < k ==> !RouteMatches(routes[i], m, segments)
    ensures Dispatch(routes, m, segments) == Some(routes[k])
  {
    if k > 0 {
      FirstMatchWins(routes[1..], m, segments, k - 1);
    }
  }

  /** Any spelling of "featured", capitals included, reaches the featured handler too. */
  lemma FeaturedInAnyCase(s: string)
    requires SameIgnoringCase(s, "featured")
    ensures Dispatch(ProductRoutes, Get, [s]) == Some(ProductRoutes[1])
  {
    assert ProductRoutes[1].path == [Lit("featured")];
    assert RouteMatches(ProductRoutes[1], Get, [s]);
    assert !RouteMatches(ProductRoutes[0], Get, [s]);
    FirstMatchWins(ProductRoutes, Get, [s], 1);
  }

  /** "Subscribe" reaches the subscribe handler as "subscribe" does. */
  lemma SubscribeInAnyCase()
    ensures Dispatch(NewsletterRoutes, Post, ["Subscribe"]) == Some(NewsletterRoutes[0])
  {
    assert SameIgnoringCase("Subscribe", "subscribe");
    assert RouteMatches(NewsletterRoutes[0], Post, ["Subscribe"]);
  }

  /** Every other single segment reaches the by-id handler. */
  lemma OtherSegmentsAreIds(s: string)
    requires s != "" && !SameIgnoringCase(s, "featured")
    ensures Dispatch(ProductRoutes, Get, [s]) == Some(ProductRoutes[2])
    ensures ProductRoutes[2].handler == GetProductById
  {
    assert !RouteMatches(ProductRoutes[0], Get, [s]);
    assert ProductRoutes[1].path == [Lit("featured")];
    assert !SegmentMatches(ProductRoutes[1].path[0], [s][0]);
    assert RouteMatches(ProductRoutes[2], Get, [s]);
    FirstMatchWins(ProductRoutes, Get, [s], 2);
  }

  /** The three reads are public; creating, updating and deleting need a token with the admin role. */
  lemma ProductAccess()
    ensures forall i :: 0 <= i < |ProductRoutes| && ProductRoutes[i].verb == Get ==> ProductRoutes[i].chain == []
    ensures forall i :: 0 <= i < |ProductRoutes| && ProductRoutes[i].verb != Get ==>
      ProductRoutes[i].chain[..2] == [Authenticate, RequireAdmin]
  {
  }

  /** Update and delete validate no body field. */
  lemma NoValidatorsOnUpdateOrDelete()
    ensures forall i, k :: 0 <= i < |ProductRoutes| && ProductRoutes[i].verb in {Put, Delete} && 0 <= k < |ProductRoutes[i].chain| ==>
      !ProductRoutes[i].chain[k].Validate?
  {
  }

  /** The chains record no error: `validationResult(req)` is empty and the handler goes on. */
  predicate Accepted(rules: seq<Rule>, req: Request, lib: Library) {
    RunRules(rules, req, lib).errors == req.errors
  }

  predicate DistinctFields(rules: seq<Rule>) {
    forall i, j :: 0 <= i < j < |rules| ==> rules[i].field != rules[j].field
  }

  /** A chain's sanitiser touches only its own field. */
  lemma SanitizedKeepsOthers(rule: Rule, body: map<string, string>, lib: Library, name: string)
    requires name != rule.field
    ensures Field(Sanitized(rule, body, lib), name) == Field(body, name)
  {
  }

  /**
   * Over chains on distinct fields, no error is recorded exactly when every
   * check passes on the body as it arrived.
   */
  lemma {:induction false} RunRulesErrors(rules: seq<Rule>, req: Request, lib: Library)
    requires DistinctFields(rules)
    ensures RunRules(rules, req, lib).errors == req.errors <==>
      forall i :: 0 <= i < |rules| ==> RulePasses(rules[i], req.body, lib)
  {
    if rules != [] {
      var rule := rules[0];
      var errs := if RulePasses(rule, req.body, lib) then req.errors else req.errors + [rule.field];
      var next := req.(body := Sanitized(rule, req.body, lib), errors := errs);
      RunRulesErrors(rules[1..], next, lib);
      forall i | 1 <= i < |rules|
        ensures RulePasses(rules[i], next.body, lib) == RulePasses(rules[i], req.body, lib)
      {
        SanitizedKeepsOthers(rule, req.body, lib, rules[i].field);
      }
      var r := RunRules(rules[1..], next, lib);
      if !RulePasses(rule, req.body, lib) {
        assert r.errors[..|errs|] == errs;
        assert |r.errors| > |req.errors|;
      } else {
        assert (forall i :: 0 <= i < |rules| ==> RulePasses(rules[i], req.body, lib)) <==>
          (forall i :: 0 <= i < |rules[1..]| ==> RulePasses(rules[1..][i], next.body, lib));
      }
    }
  }

  /**
   * A product body passes iff the name and the description are non-empty once
   * trimmed, the price parses as a number of at least 0, the category is one
   * of the five and the image address is a URL.
   */
  lemma CreateProductValidation(req: Request, lib: Library)
    ensures Accepted(CreateProductRules, req, lib) <==>
      && lib.trim(Field(req.body, "name")) != ""
      && lib.trim(Field(req.body, "description")) != ""
      && lib.parseFloat(Field(req.body, "price")).Some? && lib.parseFloat(Field(req.body, "price")).value >= 0.0
      && Field(req.body, "category") in Categories
      && lib.isUrl(Field(req.body, "imageUrl"))
  {
    var rules, body := CreateProductRules, req.body;
    RunRulesErrors(rules, req, lib);
    assert RulePasses(rules[0], body, lib) <==> lib.trim(Field(body, "name")) != "";
    assert RulePasses(rules[1], body, lib) <==> lib.trim(Field(body, "description")) != "";
    assert RulePasses(rules[2], body, lib) <==>
      lib.parseFloat(Field(body, "price")).Some? && lib.parseFloat(Field(body, "price")).value >= 0.0;
    assert RulePasses(rules[3], body, lib) <==> Field(body, "category") in Categories;
    assert RulePasses(rules[4], body, lib) <==> lib.isUrl(Field(body, "imageUrl"));
    if RulePasses(rules[0], body, lib) && RulePasses(rules[1], body, lib) && RulePasses(rules[2], body, lib)
      && RulePasses(rules[3], body, lib) && RulePasses(rules[4], body, lib)
    {
      forall i | 0 <= i < |rules| ensures RulePasses(rules[i], body, lib) {
        if i == 0 {} else if i == 1 {} else if i == 2 {} else if i == 3 {} else {}
      }
    }
  }

  /**
   * Registration needs an email, a password of six or more counted characters
   * and both names.
   */
  lemma RegisterValidation(req: Request, lib: Library)
    ensures Accepted(RegisterRules, req, lib) <==>
      && lib.isEmail(Field(req.body, "email"))
      && IsLengthCount(Field(req.body, "password")) >= 6
      && lib.trim(Field(req.body, "firstName")) != ""
      && lib.trim(Field(req.body, "lastName")) != ""
  {
    var rules, body := RegisterRules, req.body;
    RunRulesErrors(rules, req, lib);
    assert RulePasses(rules[0], body, lib) <==> lib.isEmail(Field(body, "email"));
    assert RulePasses(rules[1], body, lib) <==> IsLengthCount(Field(body, "password")) >= 6;
    assert RulePasses(rules[2], body, lib) <==> lib.trim(Field(body, "firstName")) != "";
    assert RulePasses(rules[3], body, lib) <==> lib.trim(Field(body, "lastName")) != "";
    if RulePasses(rules[0], body, lib) && RulePasses(rules[1], body, lib) && RulePasses(rules[2], body, lib)
      && RulePasses(rules[3], body, lib)
    {
      forall i | 0 <= i < |rules| ensures RulePasses(rules[i], body, lib) {
        if i == 0 {} else if i == 1 {} else if i == 2 {} else {}
      }
    }
  }

  /** Login needs an email and a non-empty password, with no minimum length and no trim. */
  lemma LoginValidation(req: Request, lib: Library)
    ensures Accepted(LoginRules, req, lib) <==>
      lib.isEmail(Field(req.body, "email")) && Field(req.body, "password") != ""
  {
    var rules, body := LoginRules, req.body;
    RunRulesErrors(rules, req, lib);
    assert RulePasses(rules[0], body, lib) <==> lib.isEmail(Field(body, "email"));
    assert RulePasses(rules[1], body, lib) <==> Field(body, "password") != "";
  }

  /** A password of three spaces is accepted at login, though it is refused at registration. */
  lemma BlankPasswordPassesLogin(req: Request, lib: Library)
    requires lib.isEmail(Field(req.body, "email"))
    requires Field(req.body, "password") == "   "
    ensures Accepted(LoginRules, req, lib)
    ensures !Accepted(RegisterRules, req, lib)
  {
    LoginValidation(req, lib);
    RegisterValidation(req, lib);
  }

  /**
   * Five letters and an emoji presentation selector are six code points but
   * five counted characters, so registration refuses the password.
   */
  lemma SelectorNotCounted(req: Request, lib: Library)
    requires Field(req.body, "password") == "abcde\U{FE0F}"
    ensures |Field(req.body, "password")| == 6
    ensures !Accepted(RegisterRules, req, lib)
  {
    var p := Field(req.body, "password");
    assert p[1..] == "bcde\U{FE0F}" && p[2..] == "cde\U{FE0F}" && p[3..] == "de\U{FE0F}";
    assert p[4..] == "e\U{FE0F}" && p[5..] == "\U{FE0F}" && p[6..] == "";
    assert IsLengthCount(p[5..]) == 0;
    assert IsLengthCount(p[4..]) == 1;
    assert IsLengthCount(p[3..]) == 2;
    assert IsLengthCount(p[2..]) == 3;
    assert IsLengthCount(p[1..]) == 4;
    assert IsLengthCount(p) == 5;
    RegisterValidation(req, lib);
  }

  /** Subscribing validates the address and hands the handler its normalised form. */
  lemma SubscribeSanitizes(req: Request, lib: Library)
    requires "email" in req.body
    ensures var r := RunChain(NewsletterRoutes[0].chain, req, lib);
      && r.Next?
      && r.req.body == req.body["email" := lib.normalizeEmail(req.body["email"])]
      && (r.req.errors == req.errors <==> lib.isEmail(req.body["email"]))
  {
    var chain := NewsletterRoutes[0].chain;
    assert chain == [Validate(EmailRules)];
    var rule := EmailRules[0];
    var errs := if RulePasses(rule, req.body, lib) then req.errors else req.errors + [rule.field];
    var after := req.(body := Sanitized(rule, req.body, lib), errors := errs);
    assert EmailRules[1..] == [];
    assert RunRules(EmailRules, req, lib) == RunRules([], after, lib) == after;
    assert chain[1..] == [];
    assert RunChain(chain, req, lib) == RunChain([], after, lib);
    assert |req.errors + [rule.field]| != |req.errors|;
  }

  /**
   * A chain that starts with `authenticate, requireAdmin`: 401 unless the
   * token verifies, 403 unless its role is "admin", and otherwise the rest of
   * the chain runs on the request that carries the decoded token.
   */
  lemma AdminGate(chain: seq<Middleware>, req: Request, lib: Library)
    requires |chain| >= 2 && chain[0] == Authenticate && chain[1] == RequireAdmin
    ensures Auth.Authenticate(req, lib.verify).Respond? ==> RunChain(chain, req, lib) == Respond(Unauthorized)
    ensures var a := Auth.Authenticate(req, lib.verify);
      a.Next? && a.req.user.value.role != "admin" ==> RunChain(chain, req, lib) == Respond(Forbidden)
    ensures var a := Auth.Authenticate(req, lib.verify);
      a.Next? && a.req.user.value.role == "admin" ==> RunChain(chain, req, lib) == RunChain(chain[2..], a.req, lib)
  {
    var a := Auth.Authenticate(req, lib.verify);
    if a.Next? {
      assert chain[1..][0] == RequireAdmin;
      assert chain[1..][1..] == chain[2..];
    }
  }

  /** Creating, updating and deleting a product all sit behind that gate. */
  lemma ProductWritesGated()
    ensures forall i :: 3 <= i < |ProductRoutes| ==>
      |ProductRoutes[i].chain| >= 2 && ProductRoutes[i].chain[0] == Authenticate && ProductRoutes[i].chain[1] == RequireAdmin
  {
  }

  /** Both newsletter forms and both account forms are public. */
  lemma PublicForms()
    ensures forall i :: 0 <= i < 2 ==> Authenticate !in NewsletterRoutes[i].chain
    ensures forall i :: 0 <= i < 2 ==> Authenticate !in AuthRoutes[i].chain
    ensures AuthRoutes[2].chain == [Authenticate] && RequireAdmin !in AuthRoutes[2].chain
  {
  }

  /** The subscriber list: 401 without a token, 403 for a valid non-admin token, the handler for an admin. */
  lemma SubscriberListGate(req: Request, lib: Library, token: string)
    ensures req.authorization.None? ==> RunChain(NewsletterRoutes[2].chain, req, lib) == Respond(Unauthorized)
    ensures req.authorization == Some(Scheme + token) && lib.verify(token).Some? ==>
      var p := lib.verify(token).value;
      RunChain(NewsletterRoutes[2].chain, req, lib) ==
        if p.role == "admin" then Next(req.(user := Some(p))) else Respond(Forbidden)
  {
    var chain := NewsletterRoutes[2].chain;
    AdminGate(chain, req, lib);
    assert chain[2..] == [];
    if req.authorization == Some(Scheme + token) {
      TokenFollowsScheme(req, token, lib.verify);
    }
  }
}
