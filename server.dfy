/** Route wiring of the application entry point (server.js). */
module Server {
  import opened Wrappers
  import opened Store
  import opened AccessControl

  /** The three role-gated mounts. */
  datatype Area = AdminArea | PosArea | WarehouseArea

  /** The role each mount passes to `requireRole`. */
  function RequiredRole(a: Area): string
  {
    match a
    case AdminArea => "admin"
    case PosArea => "employee"
    case WarehouseArea => "warehouse"
  }

  /** Whether a request reaches the router of an area. */
  function Gate(user: Option<SessionUser>, a: Area): (d: Decision)
    ensures user.None? ==> d == Stop(Redirect(LoginUrl))
    ensures user.Some? && user.value.role == AdminRole ==> d.Next?
    ensures user.Some? && user.value.role == RequiredRole(a) ==> d.Next?
    ensures d.Next? <==> user.Some? && (user.value.role == AdminRole || user.value.role == RequiredRole(a))
    ensures user.Some? && !d.Next? ==> d == Stop(Denied)
  {
    RequireRole(user, RequiredRole(a))
  }

  /**
   * Apart from the admin role, which passes everywhere, the gates are
   * disjoint: the role of one area is refused by every other area.
   */
  lemma CrossAreaDenied(user: SessionUser, a: Area, b: Area)
    requires a != b && b != AdminArea && user.role == RequiredRole(b)
    ensures Gate(Some(user), a) == Stop(Denied)
  {
    match a
    case AdminArea =>
    case PosArea =>
    case WarehouseArea =>
  }

  /** The reply of the placeholder handler behind the warehouse gate. */
  const WarehousePlaceholder := "Warehouse Management (Coming Soon)"

  /**
   * `GET /warehouse`: the warehouse gate, then the placeholder text (the
   * warehouse router is not mounted).
   */
  function WarehouseHome(user: Option<SessionUser>): (r: Reply)
    ensures r == Send(WarehousePlaceholder) <==> user.Some? && user.value.role in {AdminRole, "warehouse"}
    ensures user.None? ==> r == Redirect(LoginUrl)
    ensures user.Some? && user.value.role !in {AdminRole, "warehouse"} ==> r == Denied
  {
    match Gate(user, WarehouseArea)
    case Stop(reply) => reply
    case Next => Send(WarehousePlaceholder)
  }

  /**
   * `GET /`: `isAuthenticated`, then a redirect to the home of the user's
   * role, and the generic index page for any other role.
   */
  function Root(user: Option<SessionUser>): (r: Reply)
    ensures user.None? ==> r == Redirect(LoginUrl)
    ensures user.Some? && user.value.role == "admin" ==> r == Redirect("/admin")
    ensures user.Some? && user.value.role == "employee" ==> r == Redirect("/pos")
    ensures user.Some? && user.value.role == "warehouse" ==> r == Redirect("/warehouse")
    ensures r == Render("index") <==> user.Some? && user.value.role !in {"admin", "employee", "warehouse"}
  {
    match IsAuthenticated(user)
    case Stop(reply) => reply
    case Next =>
      if user.value.role == "admin" then Redirect("/admin")
      else if user.value.role == "employee" then Redirect("/pos")
      else if user.value.role == "warehouse" then Redirect("/warehouse")
      else Render("index")
  }

  /** Where each role's root redirect leads is the area that admits that role. */
  lemma RootLeadsIntoOwnArea(user: SessionUser, a: Area)
    requires user.role == RequiredRole(a)
    ensures Root(Some(user)) == Redirect("/" + (match a case AdminArea => "admin" case PosArea => "pos" case WarehouseArea => "warehouse"))
    ensures Gate(Some(user), a).Next?
  {
  }

  /** An employee asking for the warehouse area gets the 403 page. */
  lemma EmployeeDeniedWarehouse(id: int, name: string)
    ensures Gate(Some(SessionUser(id, name, "employee")), WarehouseArea) == Stop(Denied)
  {
  }

  const DefaultAdminName := "admin"

  /**
   * `seedAdminIfEmpty`: when the user count query succeeds and reports
   * exactly zero rows, insert the default admin whose password hash is
   * `adminHash` (bcrypt of the default password); otherwise nothing changes.
   */
  method SeedAdminIfEmpty(db: Db, countFails: bool, adminHash: string) returns (seeded: bool)
    requires db.Valid()
    modifies db
    ensures db.Valid()
    ensures seeded <==> !countFails && |old(db.users)| == 0
    ensures seeded ==>
      db.users == [User(old(db.nextId), DefaultAdminName, adminHash, AdminRole)] && db.nextId == old(db.nextId) + 1
    ensures !seeded ==> db.users == old(db.users) && db.nextId == old(db.nextId)
    ensures db.products == old(db.products) && db.methods == old(db.methods) && db.sales == old(db.sales)
    ensures db.saleItems == old(db.saleItems) && db.salePayments == old(db.salePayments)
  {
    seeded := false;
    if countFails {
      return;
    }
    var count := |db.users|;
    if count == 0 {
      db.users := db.users + [User(db.nextId, DefaultAdminName, adminHash, AdminRole)];
      db.nextId := db.nextId + 1;
      seeded := true;
    }
  }
}
