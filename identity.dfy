/** Local user principals and what injected code gets to see of a token. */
module Identity {
  import opened Wrappers

  /** A user of the Django user model, identified by its primary key, which
      is also what Django's model equality compares. */
  type UserId = nat

  /** The fields of an `AccessToken` that the injected user functions and
      the owner lookup of the authentication backend read. */
  datatype TokenInfo = TokenInfo(characterId: int, characterName: string,
                                 ownerHash: string, owner: Option<UserId>)

  /** `AUTH_USER_FROM_TOKEN_FUNC` and `AUTH_FIND_USER_FUNC`: called with a
      token, returning a user or `None`. */
  type UserFunc = TokenInfo -> Option<UserId>
}
