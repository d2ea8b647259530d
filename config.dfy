/** The application constants that the modelled code reads: the local-storage keys. */
module AppConfig {
  const AccessTokenStorageKey: string := "access_token"
  const RefreshTokenStorageKey: string := "refresh_token"
  const UserStorageKey: string := "user"
  const CartStorageKey: string := "shahd-cart"
}
