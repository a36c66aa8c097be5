/** The cache keys of the three queries, taken together. */
module QueryKeys {
  import LS = LocalStorage
  import AuthHook
  import AdminHook
  import DashboardHook

  /** The current user, the admin user list and the dashboard are cached under
      pairwise distinct keys, whatever is stored, so no query can be served
      another's data. */
  lemma QueryKeysDistinct(s: LS.Storage)
    ensures var user, admin, dash := AuthHook.CurrentUserConfig(s).key, AdminHook.AdminUsersConfig().key,
                                     DashboardHook.DashboardConfig().key;
            user != admin && user != dash && admin != dash
  {
  }
}
