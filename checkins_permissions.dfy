/** The two role-based permission classes of the check-in views. */
module CheckinsPermissions {
  import opened Wrappers
  import opened AccountsModels

  /** `IsMotorista.has_permission`: a user is present and its role is
      'motorista'. `None` is an unauthenticated request; every view
      refuses it through `IsAuthenticated` before this check runs. */
  predicate IsMotorista(user: Option<User>)
    ensures IsMotorista(user) <==> user.Some? && user.value.role == ROLE_CHOICES[0]
    ensures IsMotorista(user) ==> !user.value.IsLogistica()
  {
    user.Some? && user.value.role == MOTORISTA
  }

  /** `IsLogistica.has_permission`: a user is present and its role is
      'logistica'. */
  predicate IsLogistica(user: Option<User>)
    ensures IsLogistica(user) <==> user.Some? && user.value.role == ROLE_CHOICES[1]
    ensures user.Some? ==> (IsLogistica(user) <==> user.value.IsLogistica())
  {
    user.Some? && user.value.role == LOGISTICA
  }

  /** No user is both a driver and a logistics user. */
  lemma RolesExclusive(user: Option<User>)
    ensures !(IsMotorista(user) && IsLogistica(user))
  {
  }

  /** A user whose role was left blank passes neither permission, and
      neither does a request without a user. */
  lemma BlankRoleHasNoPermission(user: Option<User>)
    requires user.None? || user.value.role == ""
    ensures !IsMotorista(user) && !IsLogistica(user)
  {
  }

  /** The permission class and the model's `is_logistica` agree. */
  lemma IsLogisticaAgrees(u: User)
    ensures IsLogistica(Some(u)) <==> u.IsLogistica()
  {
  }
}
