/**
 * The static role -> (path, methods) table of the request gate and
 * `hasPermission`, which looks a request up in it.  Paths are compared with
 * plain string equality: an entry such as `/api/users/[id]` is a literal
 * string, not a placeholder.
 */
module Permissions {

  import opened Wrappers
  import opened Text
  import opened Roles

  /** `{ path, methods? }`: an absent method list admits every method. */
  datatype Rule = Rule(path: string, methods: Option<seq<string>>)

  const ALL_METHODS: Option<seq<string>> := Some(["GET", "POST", "PATCH", "DELETE"])

  const ADMIN_RULES: seq<Rule> := [
    Rule("/api/users", ALL_METHODS),
    Rule("/api/users/me", Some(["GET", "PATCH"])),
    Rule("/api/users/[id]", Some(["GET", "PATCH", "DELETE"])),
    Rule("/api/libraries", ALL_METHODS),
    Rule("/api/libraries/[library]", Some(["GET", "PATCH", "DELETE"])),
    Rule("/api/libraries/[library]/managers", Some(["GET", "POST"])),
    Rule("/api/libraries/[library]/managers/[userId]", Some(["GET", "DELETE"])),
    Rule("/api/libraries/[library]/books", Some(["GET"])),
    Rule("/api/books", ALL_METHODS),
    Rule("/api/books/[book]", Some(["GET", "PATCH", "DELETE"])),
    Rule("/api/loans", ALL_METHODS),
    Rule("/api/reservations", ALL_METHODS),
    Rule("/api/penalties", ALL_METHODS),
    Rule("/api/sales", ALL_METHODS),
    Rule("/api/feedbacks", ALL_METHODS),
    Rule("/api/stats", Some(["GET"])),
    Rule("/api/public", Some(["GET"])),
    Rule("/admin", Some(["GET"]))
  ]

  const MANAGER_RULES: seq<Rule> := [
    Rule("/api/users", Some(["GET"])),
    Rule("/api/users/me", Some(["GET"])),
    Rule("/api/libraries", Some(["GET", "PATCH"])),
    Rule("/api/libraries/[library]", Some(["GET", "PATCH"])),
    Rule("/api/libraries/[library]/managers", Some(["GET"])),
    Rule("/api/libraries/[library]/books", Some(["GET"])),
    Rule("/api/books", ALL_METHODS),
    Rule("/api/books/[book]", Some(["GET", "PATCH", "DELETE"])),
    Rule("/api/loans", Some(["GET", "POST", "PATCH"])),
    Rule("/api/reservations", Some(["GET", "POST", "PATCH"])),
    Rule("/api/penalties", Some(["GET", "POST", "PATCH"])),
    Rule("/api/sales", Some(["GET"])),
    Rule("/api/feedbacks", Some(["GET", "POST"])),
    Rule("/api/stats", Some(["GET"])),
    Rule("/api/public", Some(["GET"]))
  ]

  const CLIENT_RULES: seq<Rule> := [
    Rule("/api/users/me", Some(["GET", "PATCH"])),
    Rule("/api/books", Some(["GET"])),
    Rule("/api/libraries", Some(["GET"])),
    Rule("/api/libraries/[library]", Some(["GET"])),
    Rule("/api/libraries/[library]/books", Some(["GET"])),
    Rule("/api/reservations", Some(["GET", "POST", "DELETE"])),
    Rule("/api/feedbacks", Some(["GET", "POST"])),
    Rule("/api/public", Some(["GET"]))
  ]

  const DELIVERY_RULES: seq<Rule> := [
    Rule("/api/sales", Some(["GET", "PATCH"])),
    Rule("/api/users/me", Some(["GET"])),
    Rule("/api/public", Some(["GET"]))
  ]

  /** The permission table, keyed by role name. */
  const PERMISSIONS: map<string, seq<Rule>> := map[
    ADMIN := ADMIN_RULES,
    MANAGER := MANAGER_RULES,
    CLIENT := CLIENT_RULES,
    DELIVERY := DELIVERY_RULES
  ]

  /** The callback of `.some`: the path is the rule's path and the method is admitted. */
  predicate RuleMatches(rule: Rule, path: string, httpMethod: string) {
    path == rule.path && (rule.methods.None? || httpMethod in rule.methods.value)
  }

  /** `rules.some(rule => RuleMatches(rule, path, httpMethod))` */
  function SomeRuleMatches(rules: seq<Rule>, path: string, httpMethod: string): (b: bool)
    ensures b <==> exists rule :: rule in rules && RuleMatches(rule, path, httpMethod)
  {
    if rules == [] then false
    else RuleMatches(rules[0], path, httpMethod) || SomeRuleMatches(rules[1..], path, httpMethod)
  }

  /**
   * `permissions[role]?.some(...) ?? false`: true exactly when the role is one of
   * the four `UserRole` values and one of its rules names this very path and
   * admits the method.
   */
  function HasPermission(role: string, path: string, httpMethod: string): (b: bool)
    ensures b <==> role in VALID_ROLES &&
                   exists rule :: rule in PERMISSIONS[role] && RuleMatches(rule, path, httpMethod)
  {
    role in PERMISSIONS && SomeRuleMatches(PERMISSIONS[role], path, httpMethod)
  }

  /** Every path the table names, over all roles. */
  const TABLE_PATHS: set<string> := {
    "/api/users", "/api/users/me", "/api/users/[id]",
    "/api/libraries", "/api/libraries/[library]", "/api/libraries/[library]/managers",
    "/api/libraries/[library]/managers/[userId]", "/api/libraries/[library]/books",
    "/api/books", "/api/books/[book]", "/api/loans", "/api/reservations", "/api/penalties",
    "/api/sales", "/api/feedbacks", "/api/stats", "/api/public", "/admin"
  }

  const STANDARD_METHODS: seq<string> := ["GET", "POST", "PATCH", "DELETE"]

  /** Every rule of `rules` names a path of the table. */
  predicate PathsListed(rules: seq<Rule>) {
    forall rule :: rule in rules ==> rule.path in TABLE_PATHS
  }

  /** Every rule of `rules` lists its methods, all of them standard verbs. */
  predicate MethodsListed(rules: seq<Rule>) {
    forall rule :: rule in rules ==> StandardMethods(rule)
  }

  /** The rule lists its methods, all of them standard verbs. */
  predicate StandardMethods(rule: Rule) {
    rule.methods.Some? && forall m :: m in rule.methods.value ==> m in STANDARD_METHODS
  }

  lemma AdminRulesListed()
    ensures PathsListed(ADMIN_RULES) && MethodsListed(ADMIN_RULES)
  {
    AdminPathsListed();
    AdminMethodsListed();
  }

  lemma AdminPathsListed()
    ensures PathsListed(ADMIN_RULES)
  {
  }

  lemma AdminMethodsListed()
    ensures MethodsListed(ADMIN_RULES)
  {
    forall i | 0 <= i < |ADMIN_RULES|
      ensures StandardMethods(ADMIN_RULES[i])
    {
    }
  }

  lemma ManagerRulesListed()
    ensures PathsListed(MANAGER_RULES) && MethodsListed(MANAGER_RULES)
  {
    ManagerPathsListed();
    ManagerMethodsListed();
  }

  lemma ManagerPathsListed()
    ensures PathsListed(MANAGER_RULES)
  {
  }

  lemma ManagerMethodsListed()
    ensures MethodsListed(MANAGER_RULES)
  {
  }

  lemma ClientRulesListed()
    ensures PathsListed(CLIENT_RULES) && MethodsListed(CLIENT_RULES)
  {
    assert PathsListed(CLIENT_RULES);
  }

  lemma DeliveryRulesListed()
    ensures PathsListed(DELIVERY_RULES) && MethodsListed(DELIVERY_RULES)
  {
    assert PathsListed(DELIVERY_RULES);
  }

  lemma RulesListed(role: string)
    requires role in PERMISSIONS
    ensures PathsListed(PERMISSIONS[role]) && MethodsListed(PERMISSIONS[role])
  {
    if role == ADMIN {
      AdminRulesListed();
    } else if role == MANAGER {
      ManagerRulesListed();
    } else if role == CLIENT {
      ClientRulesListed();
    } else {
      DeliveryRulesListed();
    }
  }

  /** Whatever the role, only a path written in the table and one of the four verbs can be admitted. */
  lemma PermittedRequestIsListed(role: string, path: string, httpMethod: string)
    requires HasPermission(role, path, httpMethod)
    ensures path in TABLE_PATHS
    ensures httpMethod in STANDARD_METHODS
  {
    var rules := PERMISSIONS[role];
    var rule :| rule in rules && RuleMatches(rule, path, httpMethod);
    RulesListed(role);
    assert rule.path in TABLE_PATHS;
  }

  /** The delivery role is admitted to exactly four (path, method) pairs. */
  lemma DeliveryPermissions(path: string, httpMethod: string)
    ensures HasPermission(DELIVERY, path, httpMethod) <==>
      (path == "/api/sales" && httpMethod in ["GET", "PATCH"]) ||
      (path == "/api/users/me" && httpMethod == "GET") ||
      (path == "/api/public" && httpMethod == "GET")
  {
  }

  /** Rule `a` admits every request rule `r` admits. */
  predicate Covers(a: Rule, r: Rule) {
    a.path == r.path &&
    (a.methods.None? || (r.methods.Some? && forall m :: m in r.methods.value ==> m in a.methods.value))
  }

  /** For each rule of the other roles, the index of the administrator rule that covers it. */
  const MANAGER_IN_ADMIN: seq<nat> := [0, 1, 3, 4, 5, 7, 8, 9, 10, 11, 12, 13, 14, 15, 16]
  const CLIENT_IN_ADMIN: seq<nat> := [1, 8, 3, 4, 7, 11, 14, 16]
  const DELIVERY_IN_ADMIN: seq<nat> := [13, 1, 16]

  lemma CoveredByAdmin(role: string, i: nat)
    requires role in PERMISSIONS && role != ADMIN && i < |PERMISSIONS[role]|
    ensures exists a :: a in ADMIN_RULES && Covers(a, PERMISSIONS[role][i])
  {
    if role == MANAGER {
      ManagerRuleCovered(i);
    } else if role == CLIENT {
      ClientRuleCovered(i);
    } else {
      DeliveryRuleCovered(i);
    }
  }

  lemma ManagerRuleCovered(i: nat)
    requires i < |MANAGER_RULES|
    ensures MANAGER_IN_ADMIN[i] < |ADMIN_RULES| && Covers(ADMIN_RULES[MANAGER_IN_ADMIN[i]], MANAGER_RULES[i])
  {
  }

  lemma ClientRuleCovered(i: nat)
    requires i < |CLIENT_RULES|
    ensures CLIENT_IN_ADMIN[i] < |ADMIN_RULES| && Covers(ADMIN_RULES[CLIENT_IN_ADMIN[i]], CLIENT_RULES[i])
  {
  }

  lemma DeliveryRuleCovered(i: nat)
    requires i < |DELIVERY_RULES|
    ensures DELIVERY_IN_ADMIN[i] < |ADMIN_RULES| && Covers(ADMIN_RULES[DELIVERY_IN_ADMIN[i]], DELIVERY_RULES[i])
  {
  }

  /** The administrator is admitted to everything any role is admitted to. */
  lemma AdminDominates(role: string, path: string, httpMethod: string)
    requires HasPermission(role, path, httpMethod)
    ensures HasPermission(ADMIN, path, httpMethod)
  {
    if role != ADMIN {
      var rules := PERMISSIONS[role];
      var rule :| rule in rules && RuleMatches(rule, path, httpMethod);
      var i :| 0 <= i < |rules| && rules[i] == rule;
      CoveredByAdmin(role, i);
      var a :| a in ADMIN_RULES && Covers(a, rule);
      assert RuleMatches(a, path, httpMethod);
    }
  }

  /** The only table paths of the form `/api/users/<seg>` have `me` or `[id]` as the segment. */
  lemma ListedUserPath(seg: string)
    requires "/api/users/" + seg in TABLE_PATHS
    ensures seg == "me" || seg == "[id]"
  {
    var p := "/api/users/" + seg;
    assert p[5] == 'u';
    assert p in {"/api/users/me", "/api/users/[id]"};
    assert p[11..] == seg;
  }

  /**
   * Matching is by equality, so `/api/users/<seg>` is refused to every role
   * unless the segment is literally `me` or `[id]`: no concrete user id passes.
   */
  lemma UserRecordPathDenied(role: string, seg: string, httpMethod: string)
    requires seg != "me" && seg != "[id]"
    ensures !HasPermission(role, "/api/users/" + seg, httpMethod)
  {
    if HasPermission(role, "/api/users/" + seg, httpMethod) {
      PermittedRequestIsListed(role, "/api/users/" + seg, httpMethod);
      ListedUserPath(seg);
    }
  }

  /** The table paths that start with `/api/libraries/`. */
  lemma ListedLibraryPaths(p: string)
    requires p in TABLE_PATHS && |p| > 14 && p[5] == 'l'
    ensures p in {"/api/libraries/[library]", "/api/libraries/[library]/managers",
                  "/api/libraries/[library]/managers/[userId]", "/api/libraries/[library]/books"}
  {
  }

  /** The only table paths below `/api/libraries/<seg>` have `[library]` as the segment. */
  lemma ListedLibraryPath(seg: string, rest: string)
    requires '/' !in seg
    requires rest == "" || rest[0] == '/'
    requires "/api/libraries/" + seg + rest in TABLE_PATHS
    ensures seg == "[library]"
  {
    var p := "/api/libraries/" + seg + rest;
    assert p[5] == 'l';
    ListedLibraryPaths(p);
    assert p[15..] == seg + rest;
    var tail := if p == "/api/libraries/[library]" then ""
                else if p == "/api/libraries/[library]/managers" then "/managers"
                else if p == "/api/libraries/[library]/books" then "/books"
                else "/managers/[userId]";
    LibrarySuffix(p, tail);
    LeadingSegmentUnique(seg, rest, "[library]", tail);
  }

  lemma LibrarySuffix(p: string, tail: string)
    requires p in {"/api/libraries/[library]", "/api/libraries/[library]/managers",
                   "/api/libraries/[library]/managers/[userId]", "/api/libraries/[library]/books"}
    requires tail == if p == "/api/libraries/[library]" then ""
                     else if p == "/api/libraries/[library]/managers" then "/managers"
                     else if p == "/api/libraries/[library]/books" then "/books"
                     else "/managers/[userId]"
    ensures |p| >= 15 && p[15..] == "[library]" + tail
  {
  }

  /**
   * Likewise every path below `/api/libraries/<seg>` is refused to every role
   * unless the segment is literally `[library]`: no concrete library id passes.
   */
  lemma LibraryRecordPathDenied(role: string, seg: string, rest: string, httpMethod: string)
    requires '/' !in seg && seg != "[library]"
    requires rest == "" || rest[0] == '/'
    ensures !HasPermission(role, "/api/libraries/" + seg + rest, httpMethod)
  {
    if HasPermission(role, "/api/libraries/" + seg + rest, httpMethod) {
      PermittedRequestIsListed(role, "/api/libraries/" + seg + rest, httpMethod);
      ListedLibraryPath(seg, rest);
    }
  }
}
