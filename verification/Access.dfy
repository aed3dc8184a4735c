/** Role-based permission checks: the access-control helper and the
    organization plugin's own evaluation of a permission request. */
module Access {

  /** Resource names and the actions on each. */
  type Statements = map<string, seq<string>>

  datatype Connector = And | Or

  /** `accessActionsAllowed` for all actions, and for any. */
  ghost predicate AllActions(allowed: seq<string>, requested: seq<string>)
  {
    requested != [] && forall a :: a in requested ==> a in allowed
  }

  ghost predicate AnyAction(allowed: seq<string>, requested: seq<string>)
  {
    exists a :: a in requested && a in allowed
  }

  method ActionsAllowed(allowed: seq<string>, requested: seq<string>, connector: Connector) returns (ok: bool)
    ensures ok <==> if connector.Or? then AnyAction(allowed, requested) else AllActions(allowed, requested)
  {
    if |requested| == 0 {
      return false;
    }
    var allowedSet: set<string> := {};
    for i := 0 to |allowed|
      invariant forall a :: a in allowedSet <==> a in allowed[..i]
    {
      allowedSet := allowedSet + {allowed[i]};
      assert allowed[..i + 1] == allowed[..i] + [allowed[i]];
    }
    assert allowed[..|allowed|] == allowed;
    for i := 0 to |requested|
      invariant connector.Or? ==> forall j :: 0 <= j < i ==> requested[j] !in allowed
      invariant connector.And? ==> forall j :: 0 <= j < i ==> requested[j] in allowed
    {
      if requested[i] in allowedSet && connector.Or? {
        return true;
      }
      if requested[i] !in allowedSet && connector.And? {
        return false;
      }
    }
    return connector.And?;
  }

  /** What a role grants for a request, with either connector. */
  ghost predicate Grants(statements: Statements, request: Statements, connector: Connector)
  {
    match connector
    case And =>
      request != map[] && forall r :: r in request ==> r in statements && AllActions(statements[r], request[r])
    case Or =>
      exists r :: r in request && r in statements && AnyAction(statements[r], request[r])
  }

  /** `Authorize`: the resources are visited in an arbitrary order, but the
      answer is the same in all of them. */
  method Authorize(statements: Statements, request: Statements, connector: Connector) returns (success: bool)
    ensures success <==> Grants(statements, request, connector)
  {
    var authorizedResource := false;
    var unseen := request.Keys;
    while unseen != {}
      invariant unseen <= request.Keys
      invariant connector.And? ==>
        forall r :: r in request && r !in unseen ==> r in statements && AllActions(statements[r], request[r])
      invariant connector.Or? ==> !authorizedResource
      invariant connector.Or? ==>
        forall r :: r in request && r !in unseen ==> !(r in statements && AnyAction(statements[r], request[r]))
      invariant connector.And? ==> (authorizedResource <==> unseen != request.Keys)
    {
      var resource :| resource in unseen;
      unseen := unseen - {resource};
      if resource !in statements {
        if connector.And? {
          return false;
        }
        continue;
      }
      var authorized := ActionsAllowed(statements[resource], request[resource], connector);
      if authorized {
        authorizedResource := true;
      }
      if authorized && connector.Or? {
        return true;
      }
      if !authorized && connector.And? {
        return false;
      }
    }
    assert request.Keys == {} <==> request == map[];
    return authorizedResource;
  }

  /** What the organization plugin asks of a role's statements. */
  ghost predicate Allows(allowed: Statements, permissions: Statements)
  {
    forall r :: r in permissions ==> r in allowed && forall a :: a in permissions[r] ==> a in allowed[r]
  }

  /** `permissionAllows`. */
  method PermissionAllows(allowed: Statements, permissions: Statements) returns (ok: bool)
    ensures ok <==> Allows(allowed, permissions)
  {
    var unseen := permissions.Keys;
    while unseen != {}
      invariant unseen <= permissions.Keys
      invariant forall r :: r in permissions && r !in unseen ==>
        r in allowed && forall a :: a in permissions[r] ==> a in allowed[r]
    {
      var resource :| resource in unseen;
      unseen := unseen - {resource};
      if resource !in allowed {
        return false;
      }
      var actions := permissions[resource];
      for i := 0 to |actions|
        invariant forall j :: 0 <= j < i ==> actions[j] in allowed[resource]
      {
        if actions[i] !in allowed[resource] {
          return false;
        }
      }
    }
    return true;
  }

  /** The two evaluators differ only on requests that ask for nothing: the
      access-control helper refuses the empty request and empty action lists,
      the organization plugin lets them pass. */
  lemma EvaluatorsAgree(statements: Statements, request: Statements)
    ensures Grants(statements, request, And) <==>
            Allows(statements, request) && request != map[] && forall r :: r in request ==> request[r] != []
  {
    if Allows(statements, request) && forall r :: r in request ==> request[r] != [] {
      forall r | r in request ensures r in statements && AllActions(statements[r], request[r]) {
      }
    }
  }

  /** Demanding everything is at least as strict as demanding something. */
  lemma AndImpliesOr(statements: Statements, request: Statements)
    requires Grants(statements, request, And)
    ensures Grants(statements, request, Or)
  {
    assert request.Keys != {};
    var r :| r in request.Keys;
    assert request[r][0] in request[r];
  }

}
