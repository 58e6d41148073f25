/**
 * The client's routes: a route's options with their defaults, the checks a route must pass to be
 * built (a tutorial-related route needs a 'tutorialId' parameter; a drawer route may only have
 * 'tutorialId' and optional parameters, and 'tutorialId' only when tutorial-related), the questions
 * asked of a built route, and the combination of two routes.
 */
module Routing {
  import opened Wrappers
  import opened UserService

  /** A part of a route's path: a fixed segment or a parameter, which may be optional. */
  datatype PathPart = Segment(text: string) | Param(param: string, optional: bool)

  const TutorialId := "tutorialId"

  datatype Roles = AllRoles | Only(roles: seq<Role>)

  /** The options a route is built from; an absent one takes its default. */
  datatype RouteOptions = RouteOptions(
    path: seq<PathPart>,
    title: string,
    isTutorialRelated: Option<bool>,
    isAccessibleBySubstitute: Option<bool>,
    isExact: Option<bool>,
    isInDrawer: Option<bool>,
    icon: Option<string>,
    isPrivate: Option<bool>,
    roles: Option<Roles>)

  datatype CustomRoute = CustomRoute(
    parts: seq<PathPart>,
    title: string,
    icon: Option<string>,
    roles: Roles,
    isInDrawer: bool,
    isPrivate: bool,
    isTutorialRelated: bool,
    isAccessibleBySubstitute: bool,
    isExact: bool)

  /** Why a route cannot be built; the route's title names it. */
  datatype RouteError =
    | NoTutorialIdParam(title: string)
    | DrawerRouteNonOptional(title: string)
    | DrawerRouteNotTutorialRelatedButId(title: string)

  function Or(o: Option<bool>): bool {
    o.Some? && o.value
  }

  predicate IsTutorialIdParam(part: PathPart) {
    part.Param? && part.param == TutorialId
  }

  /** What is wrong with a part of a drawer route, if anything. */
  function DrawerViolation(part: PathPart, isTutorialRelated: bool, title: string): Option<RouteError> {
    if part.Param? then
      if !part.optional && part.param != TutorialId then Some(DrawerRouteNonOptional(title))
      else if !isTutorialRelated && part.param == TutorialId then Some(DrawerRouteNotTutorialRelatedButId(title))
      else None
    else None
  }

  /** What is wrong with the first part of a drawer route that has something wrong. */
  function FirstDrawerViolation(parts: seq<PathPart>, isTutorialRelated: bool, title: string): (r: Option<RouteError>)
    ensures r.None? <==> forall i :: 0 <= i < |parts| ==> DrawerViolation(parts[i], isTutorialRelated, title).None?
    ensures r.Some? ==> exists i :: 0 <= i < |parts| && r == DrawerViolation(parts[i], isTutorialRelated, title)
  {
    if parts == [] then None
    else if DrawerViolation(parts[0], isTutorialRelated, title).Some? then DrawerViolation(parts[0], isTutorialRelated, title)
    else
      var rest := FirstDrawerViolation(parts[1..], isTutorialRelated, title);
      assert forall i :: 1 <= i < |parts| ==> parts[i] == parts[1..][i - 1];
      rest
  }

  /**
   * A drawer route is accepted exactly when every parameter is optional or 'tutorialId', and
   * 'tutorialId' appears only in tutorial-related routes.
   */
  lemma DrawerRouteAcceptedIff(parts: seq<PathPart>, isTutorialRelated: bool, title: string)
    ensures FirstDrawerViolation(parts, isTutorialRelated, title).None? <==>
      forall i :: 0 <= i < |parts| && parts[i].Param? ==>
        (parts[i].optional || parts[i].param == TutorialId) && (isTutorialRelated || parts[i].param != TutorialId)
  {
    if FirstDrawerViolation(parts, isTutorialRelated, title).None? {
      forall i | 0 <= i < |parts| && parts[i].Param?
        ensures (parts[i].optional || parts[i].param == TutorialId) && (isTutorialRelated || parts[i].param != TutorialId)
      {
        assert DrawerViolation(parts[i], isTutorialRelated, title).None?;
      }
    }
  }

  /** Whether some part of the path is the 'tutorialId' parameter, looking at one part after the other. */
  method CheckIfTutorialIdParamIsPresent(parts: seq<PathPart>) returns (present: bool)
    ensures present <==> exists i :: 0 <= i < |parts| && IsTutorialIdParam(parts[i])
  {
    for i := 0 to |parts|
      invariant forall k :: 0 <= k < i ==> !IsTutorialIdParam(parts[k])
    {
      if parts[i].Param? && parts[i].param == TutorialId {
        return true;
      }
    }
    return false;
  }

  /** Checks the parts of a drawer route one after the other; the first part with something wrong decides the error. */
  method CheckIfValidDrawerRoute(options: RouteOptions) returns (r: Result<(), RouteError>)
    ensures r.Ok? <==> FirstDrawerViolation(options.path, Or(options.isTutorialRelated), options.title).None?
    ensures r.Err? ==> Some(r.error) == FirstDrawerViolation(options.path, Or(options.isTutorialRelated), options.title)
  {
    var parts := options.path;
    var related := Or(options.isTutorialRelated);
    for i := 0 to |parts|
      invariant FirstDrawerViolation(parts, related, options.title) == FirstDrawerViolation(parts[i..], related, options.title)
    {
      assert parts[i..][1..] == parts[i + 1..];
      var part := parts[i];
      if part.Param? {
        if !part.optional && part.param != TutorialId {
          return Err(DrawerRouteNonOptional(options.title));
        } else if !related && part.param == TutorialId {
          return Err(DrawerRouteNotTutorialRelatedButId(options.title));
        }
      }
    }
    return Ok(());
  }

  /** The checks of a route's options: first the 'tutorialId' of a tutorial-related route, then a drawer route's parameters. */
  method AssertOptions(options: RouteOptions) returns (r: Result<(), RouteError>)
    ensures r.Ok? <==> OptionsAccepted(options)
    ensures r.Err? && Or(options.isTutorialRelated) && !HasTutorialId(options.path) ==> r.error == NoTutorialIdParam(options.title)
    ensures r.Err? && !(Or(options.isTutorialRelated) && !HasTutorialId(options.path)) ==>
      Some(r.error) == FirstDrawerViolation(options.path, Or(options.isTutorialRelated), options.title)
  {
    if Or(options.isTutorialRelated) {
      var present := CheckIfTutorialIdParamIsPresent(options.path);
      if !present {
        return Err(NoTutorialIdParam(options.title));
      }
    }
    if Or(options.isInDrawer) {
      r := CheckIfValidDrawerRoute(options);
      return;
    }
    return Ok(());
  }

  predicate HasTutorialId(parts: seq<PathPart>) {
    exists i :: 0 <= i < |parts| && IsTutorialIdParam(parts[i])
  }

  /** The options a route can be built from. */
  predicate OptionsAccepted(options: RouteOptions) {
    (Or(options.isTutorialRelated) ==> HasTutorialId(options.path)) &&
    (Or(options.isInDrawer) ==> FirstDrawerViolation(options.path, Or(options.isTutorialRelated), options.title).None?)
  }

  /** Builds a route from its options, each absent option taking its default: no icon, every role, every flag false. */
  method NewCustomRoute(options: RouteOptions) returns (r: Result<CustomRoute, RouteError>)
    ensures r.Ok? <==> OptionsAccepted(options)
    ensures r.Err? && Or(options.isTutorialRelated) && !HasTutorialId(options.path) ==> r.error == NoTutorialIdParam(options.title)
    ensures r.Err? && !(Or(options.isTutorialRelated) && !HasTutorialId(options.path)) ==>
      Some(r.error) == FirstDrawerViolation(options.path, Or(options.isTutorialRelated), options.title)
    ensures r.Ok? ==> r.value == CustomRoute(options.path, options.title, options.icon,
      if options.roles.Some? then options.roles.value else AllRoles,
      Or(options.isInDrawer), Or(options.isPrivate), Or(options.isTutorialRelated),
      Or(options.isAccessibleBySubstitute), Or(options.isExact))
  {
    var checked := AssertOptions(options);
    if checked.Err? {
      return Err(checked.error);
    }
    return Ok(CustomRoute(options.path, options.title, options.icon,
      if options.roles.Some? then options.roles.value else AllRoles,
      Or(options.isInDrawer), Or(options.isPrivate), Or(options.isTutorialRelated),
      Or(options.isAccessibleBySubstitute), Or(options.isExact)));
  }

  /** A route without any optional setting is neither tutorial-related nor in the drawer, so it is always built. */
  lemma DefaultRoute(path: seq<PathPart>, title: string)
    ensures OptionsAccepted(RouteOptions(path, title, None, None, None, None, None, None, None))
  {
  }

  /** Options with the route marked private, as a private route passes them on. */
  function PrivateRouteOptions(options: RouteOptions): RouteOptions {
    options.(isPrivate := Some(true))
  }

  /** Options with the route marked private and in the drawer, as a drawer route passes them on. */
  function DrawerRouteOptions(options: RouteOptions): RouteOptions {
    PrivateRouteOptions(options).(isInDrawer := Some(true))
  }

  /**
   * A drawer route that is not tutorial-related and is accepted has only optional parameters, and
   * a tutorial-related one has its 'tutorialId'.
   */
  lemma AcceptedDrawerRoute(options: RouteOptions)
    requires OptionsAccepted(DrawerRouteOptions(options))
    ensures !Or(options.isTutorialRelated) ==> forall i :: 0 <= i < |options.path| && options.path[i].Param? ==> options.path[i].optional
    ensures Or(options.isTutorialRelated) ==> HasTutorialId(options.path)
  {
    var o := DrawerRouteOptions(options);
    DrawerRouteAcceptedIff(o.path, Or(o.isTutorialRelated), o.title);
  }

  /** Whether the route has no required parameter, looking at one part after the other. */
  method HasOnlyOptionalParams(route: CustomRoute) returns (only: bool)
    ensures only <==> forall i :: 0 <= i < |route.parts| && route.parts[i].Param? ==> route.parts[i].optional
  {
    for i := 0 to |route.parts|
      invariant forall k :: 0 <= k < i && route.parts[k].Param? ==> route.parts[k].optional
    {
      if route.parts[i].Param? && !route.parts[i].optional {
        return false;
      }
    }
    return true;
  }

  /** Whether the route is in the drawer with a required 'tutorialId' and otherwise only optional parameters. */
  method IsTutorialRelatedDrawerRoute(route: CustomRoute) returns (related: bool)
    ensures related <==> (
      route.isInDrawer &&
      forall i :: 0 <= i < |route.parts| && route.parts[i].Param? ==>
        (route.parts[i].param == TutorialId <==> !route.parts[i].optional))
  {
    if !route.isInDrawer {
      return false;
    }
    for i := 0 to |route.parts|
      invariant forall k :: 0 <= k < i && route.parts[k].Param? ==> (route.parts[k].param == TutorialId <==> !route.parts[k].optional)
    {
      var part := route.parts[i];
      if part.Param? {
        if part.param != TutorialId && !part.optional {
          return false;
        } else if part.param == TutorialId && part.optional {
          return false;
        }
      }
    }
    return true;
  }

  /**
   * The route whose path is the base route's parts followed by the extension's, with the given
   * options: only the path is taken from the two routes, every other setting from the options.
   */
  method Combine(baseRoute: CustomRoute, extension: CustomRoute, options: RouteOptions) returns (r: Result<CustomRoute, RouteError>)
    ensures r.Ok? <==> OptionsAccepted(options.(path := baseRoute.parts + extension.parts))
    ensures var parts := baseRoute.parts + extension.parts;
      r.Err? && Or(options.isTutorialRelated) && !HasTutorialId(parts) ==> r.error == NoTutorialIdParam(options.title)
    ensures var parts := baseRoute.parts + extension.parts;
      r.Err? && !(Or(options.isTutorialRelated) && !HasTutorialId(parts)) ==>
        Some(r.error) == FirstDrawerViolation(parts, Or(options.isTutorialRelated), options.title)
    ensures r.Ok? ==> r.value == CustomRoute(baseRoute.parts + extension.parts, options.title, options.icon,
      if options.roles.Some? then options.roles.value else AllRoles,
      Or(options.isInDrawer), Or(options.isPrivate), Or(options.isTutorialRelated),
      Or(options.isAccessibleBySubstitute), Or(options.isExact))
  {
    r := NewCustomRoute(options.(path := baseRoute.parts + extension.parts));
  }
}
