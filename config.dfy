/**
 * The bot's static configuration. Only the owner's user id takes part in
 * any decision; the token, prefix and display name do not.
 */
module Config {
  /** The single user id with unconditional authority, immune to moderation. */
  const OWNER_ID: int := 1342772842424438806
}
