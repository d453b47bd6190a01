/**
 * The user administration routes: approving and revoking an account and
 * toggling its administrator and supervisor flags, with the guards that
 * keep an administrator from acting on their own account.
 */
module UserAdmin {
  import opened Common

  /** The flags of a `User` the routes change, with the name the flash messages use. */
  datatype Account = Account(username: string, approved: bool, admin: bool, supervisor: bool)

  // ------------------------------------------------------------------
  // The flag transitions
  // ------------------------------------------------------------------

  function Approved(a: Account): Account { a.(approved := true) }

  /** Revoking is refused on one's own account. */
  function Revoked(a: Account, self: bool): Account
  {
    if self then a else a.(approved := false)
  }

  /** Toggling administrator is refused on one's own account; a promotion also approves. */
  function AdminToggled(a: Account, self: bool): Account
  {
    if self then a
    else
      var admin := !a.admin;
      a.(admin := admin, approved := a.approved || admin)
  }

  /** Toggling supervisor is refused on one's own account; a promotion also approves. */
  function SupervisorToggled(a: Account, self: bool): Account
  {
    if self then a
    else
      var supervisor := !a.supervisor;
      a.(supervisor := supervisor, approved := a.approved || supervisor)
  }

  /** Approving sets the approval and nothing else, and approving twice is approving once. */
  lemma ApproveIdempotent(a: Account)
    ensures Approved(a).approved
    ensures Approved(a).admin == a.admin && Approved(a).supervisor == a.supervisor
    ensures Approved(Approved(a)) == Approved(a)
  {
  }

  /** No route changes its caller's own flags. */
  lemma SelfGuards(a: Account)
    ensures Revoked(a, true) == a && AdminToggled(a, true) == a && SupervisorToggled(a, true) == a
  {
  }

  /** Toggling administrator on another user flips only that flag, and a user promoted to administrator is approved. */
  lemma AdminToggleEffect(a: Account)
    ensures AdminToggled(a, false).admin == !a.admin
    ensures AdminToggled(a, false).supervisor == a.supervisor
    ensures AdminToggled(a, false).admin ==> AdminToggled(a, false).approved
    ensures !AdminToggled(a, false).admin ==> AdminToggled(a, false).approved == a.approved
  {
  }

  /** Toggling supervisor on another user flips only that flag, and a user promoted to supervisor is approved. */
  lemma SupervisorToggleEffect(a: Account)
    ensures SupervisorToggled(a, false).supervisor == !a.supervisor
    ensures SupervisorToggled(a, false).admin == a.admin
    ensures SupervisorToggled(a, false).supervisor ==> SupervisorToggled(a, false).approved
    ensures !SupervisorToggled(a, false).supervisor ==> SupervisorToggled(a, false).approved == a.approved
  {
  }

  /** Only revoking clears an approval: approving and both toggles never do. */
  lemma OnlyRevokeClearsApproval(a: Account, self: bool)
    requires a.approved
    ensures Approved(a).approved && AdminToggled(a, self).approved && SupervisorToggled(a, self).approved
    ensures !Revoked(a, self).approved <==> !self
  {
  }

  /**
   * Toggling twice restores the flag but not the approval: one of the two
   * toggles was a promotion, so the account ends approved.
   */
  lemma ToggleTwice(a: Account)
    ensures AdminToggled(AdminToggled(a, false), false).admin == a.admin
    ensures AdminToggled(AdminToggled(a, false), false).approved
    ensures SupervisorToggled(SupervisorToggled(a, false), false).supervisor == a.supervisor
    ensures SupervisorToggled(SupervisorToggled(a, false), false).approved
  {
  }

  // ------------------------------------------------------------------
  // The user table
  // ------------------------------------------------------------------

  /** The `User` rows by id; each route fetches one with `get_or_404` and updates it in place. */
  class UserTable {
    var users: map<int, Account>

    constructor(users: map<int, Account>)
      ensures this.users == users
    {
      this.users := users;
    }

    /** `approve_user`: approves an account that was not approved yet. */
    method Approve(userId: int) returns (code: int, flashes: seq<Flash>)
      modifies this
      ensures userId !in old(users) ==> code == 404 && users == old(users)
      ensures userId in old(users) ==> code == 302 && users == old(users)[userId := Approved(old(users)[userId])]
      ensures userId in old(users) ==>
        flashes == (if old(users)[userId].approved then []
                    else [Flash("success", "Usuário " + old(users)[userId].username + " aprovado com sucesso.")])
    {
      if userId !in users {
        return 404, [];
      }
      var user := users[userId];
      flashes := [];
      if !user.approved {
        users := users[userId := user.(approved := true)];
        flashes := [Flash("success", "Usuário " + user.username + " aprovado com sucesso.")];
      } else {
        assert Approved(user) == user;
        assert users == users[userId := user];
      }
      code := 302;
    }

    /** `revoke_user`: withdraws another account's approval; one's own is refused. */
    method Revoke(userId: int, currentUserId: int) returns (code: int, flashes: seq<Flash>)
      modifies this
      ensures userId !in old(users) ==> code == 404 && users == old(users)
      ensures userId in old(users) ==>
        code == 302 && users == old(users)[userId := Revoked(old(users)[userId], userId == currentUserId)]
      ensures userId in old(users) && userId == currentUserId ==>
        flashes == [Flash("danger", "Você não pode revogar sua própria aprovação.")]
      ensures userId in old(users) && userId != currentUserId ==>
        flashes == (if old(users)[userId].approved
                    then [Flash("success", "Aprovação de " + old(users)[userId].username + " foi revogada.")] else [])
    {
      if userId !in users {
        return 404, [];
      }
      var user := users[userId];
      flashes := [];
      if userId != currentUserId {
        if user.approved {
          users := users[userId := user.(approved := false)];
          flashes := [Flash("success", "Aprovação de " + user.username + " foi revogada.")];
        } else {
          assert users == users[userId := Revoked(user, false)];
        }
      } else {
        flashes := [Flash("danger", "Você não pode revogar sua própria aprovação.")];
        assert users == users[userId := user];
      }
      code := 302;
    }

    /** `toggle_admin`: flips another account's administrator flag and approves a promoted account. */
    method ToggleAdmin(userId: int, currentUserId: int) returns (code: int, flashes: seq<Flash>)
      modifies this
      ensures userId !in old(users) ==> code == 404 && users == old(users)
      ensures userId in old(users) ==>
        code == 302 && users == old(users)[userId := AdminToggled(old(users)[userId], userId == currentUserId)]
      ensures userId in old(users) && userId == currentUserId ==>
        flashes == [Flash("warning", "Você não pode alterar seu próprio status de administrador.")]
      ensures userId in old(users) && userId != currentUserId ==>
        var u := old(users)[userId];
        flashes == (if !u.admin && !u.approved
                    then [Flash("info", "Usuário " + u.username + " também foi aprovado automaticamente.")] else [])
                   + [Flash("success", "Usuário " + u.username + " foi "
                            + (if u.admin then "rebaixado de administrador" else "promovido a administrador") + " com sucesso.")]
    {
      if userId !in users {
        return 404, [];
      }
      var user := users[userId];
      flashes := [];
      if userId != currentUserId {
        user := user.(admin := !user.admin);
        if user.admin && !user.approved {
          user := user.(approved := true);
          flashes := flashes + [Flash("info", "Usuário " + user.username + " também foi aprovado automaticamente.")];
        }
        users := users[userId := user];
        var status := if user.admin then "promovido a administrador" else "rebaixado de administrador";
        flashes := flashes + [Flash("success", "Usuário " + user.username + " foi " + status + " com sucesso.")];
      } else {
        flashes := [Flash("warning", "Você não pode alterar seu próprio status de administrador.")];
        assert users == users[userId := user];
      }
      code := 302;
    }

    /** `toggle_supervisor`: flips another account's supervisor flag and approves a promoted account. */
    method ToggleSupervisor(userId: int, currentUserId: int) returns (code: int, flashes: seq<Flash>)
      modifies this
      ensures userId !in old(users) ==> code == 404 && users == old(users)
      ensures userId in old(users) ==>
        code == 302 && users == old(users)[userId := SupervisorToggled(old(users)[userId], userId == currentUserId)]
      ensures userId in old(users) && userId == currentUserId ==>
        flashes == [Flash("warning", "Você não pode alterar seu próprio status de supervisor.")]
      ensures userId in old(users) && userId != currentUserId ==>
        var u := old(users)[userId];
        flashes == (if !u.supervisor && !u.approved
                    then [Flash("info", "Usuário " + u.username + " também foi aprovado automaticamente.")] else [])
                   + [Flash("success", "Usuário " + u.username + " foi "
                            + (if u.supervisor then "rebaixado de supervisor" else "promovido a supervisor") + " com sucesso.")]
    {
      if userId !in users {
        return 404, [];
      }
      var user := users[userId];
      if userId == currentUserId {
        assert users == users[userId := user];
        return 302, [Flash("warning", "Você não pode alterar seu próprio status de supervisor.")];
      }
      flashes := [];
      user := user.(supervisor := !user.supervisor);
      if user.supervisor && !user.approved {
        user := user.(approved := true);
        flashes := flashes + [Flash("info", "Usuário " + user.username + " também foi aprovado automaticamente.")];
      }
      users := users[userId := user];
      var status := if user.supervisor then "promovido a supervisor" else "rebaixado de supervisor";
      flashes := flashes + [Flash("success", "Usuário " + user.username + " foi " + status + " com sucesso.")];
      code := 302;
    }
  }

  // ------------------------------------------------------------------
  // Deletion
  // ------------------------------------------------------------------

  /**
   * `delete_user`: one's own account is refused before the deletion
   * service is called; otherwise the service's (success, message) is
   * flashed. Returns whether the service was called and the flash.
   */
  function DeleteUser(userId: int, currentUserId: int, servico: (bool, string)): (r: (bool, Flash))
    ensures r.0 <==> userId != currentUserId
    ensures !r.0 ==> r.1 == Flash("danger", "Você não pode deletar sua própria conta.")
    ensures r.0 ==> r.1 == Flash(if servico.0 then "success" else "danger", servico.1)
  {
    if userId == currentUserId then (false, Flash("danger", "Você não pode deletar sua própria conta."))
    else (true, Flash(if servico.0 then "success" else "danger", servico.1))
  }
}
